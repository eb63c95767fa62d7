/** What every step of the daemon keeps: well-formed pointers, manager and engine in agreement, the registry file. */
module MachineInvariants {
  import opened Wrappers
  import opened Records
  import opened Identity
  import opened Registry
  import opened Memory
  import opened Machine
  import opened StepFrames

  // ----- Shape -----

  predicate EntryOk(c: Config, e: Entry) {
    ValidId(e.id) && e.workspacePath == WorkspacePath(c.root, e.id)
  }

  ghost predicate RecordsOk(c: Config, m: Mem) {
    forall cell :: 0 <= cell < |m.eng.cells| ==>
      Managed(c.root, m.eng.cells[cell]) && (Unowned(m, cell) ==> m.eng.cells[cell].lastStartedAt == None)
  }

  /** Every key is the id of the object it points to; so distinct ids point to distinct objects. */
  ghost predicate KeysOk(m: Mem, born: nat)
    requires WellFormed(m)
  {
    && (forall id :: id in m.agents ==> RecordAt(m, m.agents[id]).id == id && born <= m.agents[id])
    && (forall id :: id in m.eng.agents ==> m.eng.cells[m.eng.agents[id]].id == id)
  }

  /** Distinct ids lead to distinct objects. */
  ghost predicate Distinct(m: Mem) {
    forall a, b :: a in m.agents && b in m.agents && a != b ==> m.agents[a] != m.agents[b]
  }

  ghost predicate CallOk(m: Mem, born: nat, call: Call) {
    match call
    case InStart(ref, id) => born <= ref < |m.heap| && m.heap[ref].cell < |m.eng.cells| && RecordAt(m, ref).id == id
    case InStop(ref, id) => born <= ref < |m.heap| && m.heap[ref].cell < |m.eng.cells| && RecordAt(m, ref).id == id
    case InEvaluate(action, cell, _, profile) =>
      && cell < |m.eng.cells| && Unowned(m, cell)
      && m.eng.cells[cell].id == action.agentId && m.eng.cells[cell].profile == profile
    case _ => true
  }

  ghost predicate HandedOn(m: Mem, record: AgentRecord)
    requires WellFormed(m)
  {
    record.id in m.agents && RecordAt(m, m.agents[record.id]) == record && record.lastStartedAt == None
  }

  /** A record on its way to the engine equals the one just put into the manager. */
  ghost predicate HoldOk(c: Config, m: Mem, hold: Hold)
    requires WellFormed(m)
  {
    match hold
    case RegisterEngine(record) => HandedOn(m, record)
    case RestoreEngine(record, rest) =>
      && HandedOn(m, record)
      && (forall i :: 0 <= i < |rest| ==> EntryOk(c, rest[i]))
    case RestoreNext(rest) => forall i :: 0 <= i < |rest| ==> EntryOk(c, rest[i])
    case _ => true
  }

  ghost predicate PhaseOk(s: Sys) {
    && (s.phase == Restoring <==> s.hold.RestoreNext? || s.hold.RestoreEngine?)
    && (s.phase == Down || s.phase == Booted ==> s.hold == Free && s.mem.agents == map[] && s.mem.eng.agents == map[])
    && (s.phase != Up ==> s.calls == map[])
  }

  ghost predicate SavedOk(c: Config, saved: map<string, Entry>) {
    forall id :: id in saved ==> saved[id].id == id && EntryOk(c, saved[id])
  }

  ghost predicate MemOk(c: Config, m: Mem, born: nat) {
    WellFormed(m) && Separate(m) && RecordsOk(c, m) && born <= |m.heap| && KeysOk(m, born)
  }

  ghost predicate Shape(c: Config, s: Sys) {
    && MemOk(c, s.mem, s.hist.born)
    && (forall k :: k in s.calls ==> CallOk(s.mem, s.hist.born, s.calls[k]))
    && HoldOk(c, s.mem, s.hold)
    && PhaseOk(s)
    && SavedOk(c, s.hist.saved)
  }

  // ----- Manager and engine -----

  /** The ids the engine knows, given the manager's and whose registration or removal is under way. */
  ghost function EngineIds(s: Sys): set<string> {
    match s.hold
    case RegisterEngine(record) => s.mem.agents.Keys - {record.id}
    case RestoreEngine(record, _) => s.mem.agents.Keys - {record.id}
    case UnregisterEngine(id) => s.mem.agents.Keys + {id}
    case _ => s.mem.agents.Keys
  }

  /** Records agree where both sides know the id. */
  ghost predicate RecordsAgree(m: Mem)
    requires WellFormed(m)
  {
    forall id :: id in m.agents && id in m.eng.agents ==>
      m.eng.cells[m.eng.agents[id]] == RecordAt(m, m.agents[id]).(lastStartedAt := None)
  }

  /** Same ids up to the operation under way, and records that differ at most in the time of the last start. */
  ghost predicate Agreement(s: Sys)
    requires WellFormed(s.mem)
  {
    && s.mem.eng.agents.Keys == EngineIds(s)
    && (s.hold.UnregisterEngine? ==> s.hold.id !in s.mem.agents)
    && RecordsAgree(s.mem)
  }

  // ----- Registry file -----

  /** Mid-load: what is restored and what is left make up the last save. */
  ghost predicate HalfRestored(s: Sys, rest: seq<Entry>)
    requires WellFormed(s.mem)
  {
    && (forall id :: id in s.mem.agents ==>
          id in s.hist.saved && At(s.mem, s.mem.agents[id]) == Restored(s.hist.saved[id]))
    && Lists(rest, s.hist.saved - s.mem.agents.Keys)
  }

  ghost predicate FileOk(s: Sys) {
    match s.mem.disk.file
    case None => s.hist.saved == map[]
    case Some(Partial) => false
    case Some(Complete(entries)) => Lists(entries, s.hist.saved)
  }

  ghost predicate SaveOk(s: Sys)
    requires WellFormed(s.mem)
  {
    match s.hold
    case Filling(_, entries) => s.mem.disk.tmp == Some(Partial) && Lists(entries, Durable(Agents(s.mem)))
    case Renaming(_) =>
      s.mem.disk.tmp.Some? && s.mem.disk.tmp.value.Complete?
        && Lists(s.mem.disk.tmp.value.entries, Durable(Agents(s.mem)))
    case RestoreNext(rest) => HalfRestored(s, rest)
    case RestoreEngine(_, rest) => HalfRestored(s, rest)
    case _ => true
  }

  /** The file is always one complete save, and equals memory's durable part unless something changed since. */
  ghost predicate DiskOk(s: Sys)
    requires WellFormed(s.mem)
  {
    && FileOk(s)
    && SaveOk(s)
    && (s.hist.synced ==> s.hist.saved == Durable(Agents(s.mem)))
  }

  // ----- Shape, step by step -----

  lemma ShapeAcrossWrite(c: Config, s: Sys, t: Sys, write: Option<(nat, Change)>)
    requires Shape(c, s) && WriteFrame(s, t, write)
    requires forall k :: k in t.calls ==> CallOk(s.mem, s.hist.born, t.calls[k])
    requires s.phase != Up ==> t.calls == map[]
    ensures Shape(c, t)
  {
    WriteKeepsRecords(s, t, write);
    SameRecordsKeep(c, s.mem, t.mem, s.hist.born);
  }

  lemma SameRecordsKeep(c: Config, m: Mem, n: Mem, born: nat)
    requires MemOk(c, m, born) && SameButState(m, n)
    ensures MemOk(c, n, born)
    ensures forall call :: CallOk(m, born, call) ==> CallOk(n, born, call)
  {
    SameButStateKeeps(m, n);
    forall cell: nat | cell < |n.eng.cells|
      ensures Managed(c.root, n.eng.cells[cell]) && (Unowned(n, cell) ==> n.eng.cells[cell].lastStartedAt == None)
    {
      assert Managed(c.root, m.eng.cells[cell]);
    }
  }

  /** Files, log and queries do not matter to the shape of memory. */
  lemma SameMapsKeep(c: Config, m: Mem, n: Mem, born: nat)
    requires MemOk(c, m, born)
    requires n == m.(disk := n.disk, log := n.log, eng := m.eng.(queries := n.eng.queries))
    ensures MemOk(c, n, born)
    ensures forall call :: CallOk(m, born, call) ==> CallOk(n, born, call)
    ensures forall hold :: HoldOk(c, m, hold) ==> HoldOk(c, n, hold)
  {
    assert forall cell: nat :: Unowned(n, cell) <==> Unowned(m, cell);
  }

  lemma CallsOfWrite(c: Config, s: Sys, l: Label)
    requires Shape(c, s) && Enabled(c, s, l) && Writes(l)
    ensures forall k :: k in Next(c, s, l).calls ==> CallOk(s.mem, s.hist.born, Next(c, s, l).calls[k])
    ensures s.phase != Up ==> Next(c, s, l).calls == map[]
  {
  }

  lemma CallsOfQuiet(c: Config, s: Sys, l: Label)
    requires Shape(c, s) && Enabled(c, s, l) && Quiet(l)
    ensures forall k :: k in Next(c, s, l).calls ==> CallOk(s.mem, s.hist.born, Next(c, s, l).calls[k])
    ensures s.phase != Up ==> Next(c, s, l).calls == map[]
    ensures l.LogOp? ==> s.hold.Logging?
  {
  }

  lemma AllocatedKeeps(m: Mem, ra: Runtime)
    requires WellFormed(m) && Separate(m)
    ensures var n := Allocated(m, ra);
      && WellFormed(n) && Separate(n) && At(n, |m.heap|) == ra
      && (forall cell :: 0 <= cell < |m.eng.cells| ==>
            n.eng.cells[cell] == m.eng.cells[cell] && (Unowned(m, cell) <==> Unowned(n, cell)))
      && !Unowned(n, |m.eng.cells|)
  {
    var n := Allocated(m, ra);
    assert n.heap[|m.heap|].cell == |m.eng.cells|;
    forall cell: nat | cell < |m.eng.cells|
      ensures Unowned(m, cell) <==> Unowned(n, cell)
    {
      assert forall r :: 0 <= r < |m.heap| ==> n.heap[r].cell == m.heap[r].cell;
    }
  }

  /** A new object at the end of the heap, under a new key. */
  lemma InsertKeeps(c: Config, m: Mem, id: string, ra: Runtime, born: nat)
    requires MemOk(c, m, born) && ra.record.id == id && Managed(c.root, ra.record)
    ensures var n := Apply(m, Insert(id, ra));
      && MemOk(c, n, born)
      && (forall call :: CallOk(m, born, call) ==> CallOk(n, born, call))
      && At(n, n.agents[id]) == ra
  {
    AllocatedKeeps(m, ra);
    AllocatedRecordsOk(c, m, ra);
    var n, a := Apply(m, Insert(id, ra)), Allocated(m, ra);
    assert n == a.(agents := m.agents[id := |m.heap|]);
    NewKeyKeeps(c, a, n);
    InsertKeysOk(m, id, ra, born);
  }

  /** The manager's map does not matter to objects and records. */
  lemma NewKeyKeeps(c: Config, m: Mem, n: Mem)
    requires WellFormed(m) && Separate(m) && RecordsOk(c, m)
    requires n == m.(agents := n.agents) && forall id :: id in n.agents ==> n.agents[id] < |n.heap|
    ensures WellFormed(n) && Separate(n) && RecordsOk(c, n)
    ensures forall cell: nat :: Unowned(n, cell) <==> Unowned(m, cell)
  {
    assert forall cell: nat :: Unowned(n, cell) <==> Unowned(m, cell);
  }

  lemma InsertKeysOk(m: Mem, id: string, ra: Runtime, born: nat)
    requires WellFormed(m) && KeysOk(m, born) && born <= |m.heap| && ra.record.id == id
    ensures var n := Apply(m, Insert(id, ra)); WellFormed(n) && KeysOk(n, born)
  {
  }

  lemma AllocatedRecordsOk(c: Config, m: Mem, ra: Runtime)
    requires WellFormed(m) && Separate(m) && RecordsOk(c, m) && Managed(c.root, ra.record)
    ensures RecordsOk(c, Allocated(m, ra))
  {
    AllocatedKeeps(m, ra);
  }

  lemma EngineInsertKeeps(c: Config, m: Mem, record: AgentRecord, born: nat)
    requires MemOk(c, m, born) && Managed(c.root, record) && record.lastStartedAt == None
    ensures var n := Apply(m, EngineInsert(record));
      MemOk(c, n, born) && forall call :: CallOk(m, born, call) ==> CallOk(n, born, call)
  {
    var n := Apply(m, EngineInsert(record));
    assert n.heap == m.heap;
    assert forall cell: nat :: Unowned(n, cell) <==> Unowned(m, cell);
  }

  /** Objects and records unchanged. */
  lemma SameStoreKeeps(c: Config, m: Mem, n: Mem, born: nat)
    requires MemOk(c, m, born) && n.heap == m.heap && n.eng.cells == m.eng.cells
    ensures RecordsOk(c, n)
    ensures forall cell: nat :: Unowned(n, cell) <==> Unowned(m, cell)
    ensures forall call :: CallOk(m, born, call) ==> CallOk(n, born, call)
  {
    assert forall cell: nat :: Unowned(n, cell) <==> Unowned(m, cell);
  }

  lemma DeleteKeeps(c: Config, m: Mem, id: string, born: nat)
    requires MemOk(c, m, born)
    ensures MemOk(c, Apply(m, Delete(id)), born)
    ensures forall call :: CallOk(m, born, call) ==> CallOk(Apply(m, Delete(id)), born, call)
  {
    SameStoreKeeps(c, m, Apply(m, Delete(id)), born);
  }

  lemma EngineDeleteKeeps(c: Config, m: Mem, id: string, born: nat)
    requires MemOk(c, m, born)
    ensures MemOk(c, Apply(m, EngineDelete(id)), born)
    ensures forall call :: CallOk(m, born, call) ==> CallOk(Apply(m, EngineDelete(id)), born, call)
  {
    SameStoreKeeps(c, m, Apply(m, EngineDelete(id)), born);
  }

  lemma SavedAgentsAreOk(c: Config, m: Mem, born: nat)
    requires MemOk(c, m, born)
    ensures SavedOk(c, Durable(Agents(m)))
  {
    forall id | id in m.agents
      ensures ToEntry(At(m, m.agents[id])).id == id && EntryOk(c, ToEntry(At(m, m.agents[id])))
    {
      assert Managed(c.root, RecordAt(m, m.agents[id]));
    }
  }

  lemma ShapeAcrossRestore(c: Config, s: Sys, t: Sys)
    requires Shape(c, s) && RestoreFrame(s, t)
    ensures Shape(c, t)
  {
    var rest := s.hold.rest;
    if rest != [] {
      assert EntryOk(c, rest[0]);
      InsertKeeps(c, s.mem, rest[0].id, Restored(rest[0]), s.hist.born);
    }
  }

  lemma ShapeAcrossRegister(c: Config, s: Sys, t: Sys, record: AgentRecord, execPath: string)
    requires Shape(c, s) && RegisterFrame(s, t, record, execPath)
    requires Managed(c.root, record) && record.lastStartedAt == None
    ensures Shape(c, t)
  {
    InsertKeeps(c, s.mem, record.id, NewRuntime(record, execPath), s.hist.born);
  }

  lemma ShapeAcrossUnregister(c: Config, s: Sys, t: Sys, id: string)
    requires Shape(c, s) && UnregisterFrame(s, t, id)
    ensures Shape(c, t)
  {
    DeleteKeeps(c, s.mem, id, s.hist.born);
  }

  lemma ShapeAcrossEngineHalf(c: Config, s: Sys, t: Sys)
    requires Shape(c, s) && EngineFrame(s, t)
    ensures Shape(c, t)
  {
    if !s.hold.UnregisterEngine? {
      assert Managed(c.root, RecordAt(s.mem, s.mem.agents[s.hold.record.id]));
      EngineInsertKeeps(c, s.mem, s.hold.record, s.hist.born);
    } else {
      EngineDeleteKeeps(c, s.mem, s.hold.id, s.hist.born);
    }
  }

  lemma SaveTouchesOnlyFiles(s: Sys, t: Sys, l: Label)
    requires SaveFrame(s, t, l)
    ensures t.mem == s.mem.(disk := t.mem.disk) && t.calls == s.calls && t.phase == s.phase
    ensures s.hold.Saving? || s.hold.Filling? || s.hold.Renaming?
    ensures t.hold.Filling? || t.hold.Renaming? || t.hold.Logging?
    ensures t.hist == s.hist.(saved := t.hist.saved, synced := t.hist.synced)
    ensures t.hist == s.hist || (WellFormed(s.mem) && t.hist.saved == Durable(Agents(s.mem)) && t.hist.synced)
  {
  }

  lemma ShapeAcrossSave(c: Config, s: Sys, t: Sys, l: Label)
    requires Shape(c, s) && SaveFrame(s, t, l)
    ensures Shape(c, t)
  {
    SaveTouchesOnlyFiles(s, t, l);
    SameMapsKeep(c, s.mem, t.mem, s.hist.born);
    SavedAgentsAreOk(c, s.mem, s.hist.born);
  }

  lemma ShapeAcrossQuiet(c: Config, s: Sys, t: Sys, l: Label, event: Option<Event>)
    requires Shape(c, s) && QuietFrame(s, t, l, event) && (l.LogOp? ==> s.hold.Logging?)
    requires forall k :: k in t.calls ==> CallOk(s.mem, s.hist.born, t.calls[k])
    requires s.phase != Up ==> t.calls == map[]
    ensures Shape(c, t)
  {
    SameMapsKeep(c, s.mem, t.mem, s.hist.born);
  }

  lemma ShapeAcrossLifetime(c: Config, s: Sys, t: Sys, readable: bool)
    requires Shape(c, s) && DiskOk(s) && (BootFrame(s, t) || OpenFrame(s, t, readable) || CrashFrame(s, t))
    ensures Shape(c, t)
  {
  }

  lemma ShapeKept(c: Config, s: Sys, l: Label)
    requires Shape(c, s) && DiskOk(s) && Enabled(c, s, l)
    ensures Shape(c, Next(c, s, l))
  {
    var t := Next(c, s, l);
    if Writes(l) {
      WriteStep(c, s, l);
      CallsOfWrite(c, s, l);
      ShapeAcrossWrite(c, s, t, WriteOf(s, l));
    } else if Saves(l) {
      SaveStep(c, s, l);
      ShapeAcrossSave(c, s, t, l);
    } else if Quiet(l) {
      QuietStep(c, s, l);
      CallsOfQuiet(c, s, l);
      ShapeAcrossQuiet(c, s, t, l, Appended(c, s, l));
    } else if l.RestoreStep? {
      RestoringStep(c, s, l);
      ShapeAcrossRestore(c, s, t);
    } else if l.Register? {
      RegisterStep(c, s, l);
      if RegisterAccepted(c, s.mem, l) {
        ShapeAcrossRegister(c, s, t, NewRecord(c.root, l.id, l.profile, l.now), l.execPath);
      }
    } else if l.Unregister? {
      UnregisterStep(c, s, l);
      if t != s {
        ShapeAcrossUnregister(c, s, t, l.id);
      }
    } else if l.EngineStep? {
      EngineHalfStep(c, s, l);
      ShapeAcrossEngineHalf(c, s, t);
    } else {
      LifetimeStep(c, s, l);
      ShapeAcrossLifetime(c, s, t, ReadableOf(l));
    }
  }

  // ----- Agreement, step by step -----

  lemma AgreementAcrossWrite(s: Sys, t: Sys, write: Option<(nat, Change)>)
    requires WellFormed(s.mem) && Separate(s.mem) && Agreement(s) && WriteFrame(s, t, write)
    ensures WellFormed(t.mem) && Agreement(t)
  {
    WriteKeepsRecords(s, t, write);
    SameButStateKeeps(s.mem, t.mem);
  }

  lemma AgreementAfterInsert(m: Mem, id: string, ra: Runtime)
    requires WellFormed(m) && RecordsAgree(m) && id !in m.eng.agents
    ensures var n := Apply(m, Insert(id, ra));
      WellFormed(n) && RecordsAgree(n) && n.eng.agents == m.eng.agents && n.agents.Keys == m.agents.Keys + {id}
  {
  }

  lemma AgreementAcrossRestore(c: Config, s: Sys, t: Sys)
    requires Shape(c, s) && Agreement(s) && RestoreFrame(s, t)
    ensures WellFormed(t.mem) && Agreement(t)
  {
    var rest := s.hold.rest;
    if rest != [] && rest[0].id !in s.mem.agents {
      AgreementAfterInsert(s.mem, rest[0].id, Restored(rest[0]));
      assert EngineIds(t) == s.mem.agents.Keys;
    }
  }

  lemma AgreementAcrossRegister(s: Sys, t: Sys, record: AgentRecord, execPath: string)
    requires WellFormed(s.mem) && Agreement(s) && RegisterFrame(s, t, record, execPath)
    ensures WellFormed(t.mem) && Agreement(t)
  {
    AgreementAfterInsert(s.mem, record.id, NewRuntime(record, execPath));
    assert EngineIds(t) == s.mem.agents.Keys;
  }

  lemma AgreementAcrossUnregister(s: Sys, t: Sys, id: string)
    requires WellFormed(s.mem) && Agreement(s) && UnregisterFrame(s, t, id)
    ensures WellFormed(t.mem) && Agreement(t)
  {
    assert EngineIds(t) == s.mem.agents.Keys;
  }

  lemma AgreementAcrossEngineInsert(s: Sys, t: Sys, record: AgentRecord)
    requires WellFormed(s.mem) && Agreement(s) && t.mem == Apply(s.mem, EngineInsert(record))
    requires HandedOn(s.mem, record)
    requires EngineIds(s) == s.mem.agents.Keys - {record.id} && EngineIds(t) == t.mem.agents.Keys
    requires !t.hold.UnregisterEngine?
    ensures WellFormed(t.mem) && Agreement(t)
  {
  }

  lemma AgreementAcrossEngineHalf(c: Config, s: Sys, t: Sys)
    requires Shape(c, s) && Agreement(s) && EngineFrame(s, t)
    ensures WellFormed(t.mem) && Agreement(t)
  {
    if !s.hold.UnregisterEngine? {
      AgreementAcrossEngineInsert(s, t, s.hold.record);
    } else {
      AgreementAcrossEngineDelete(s, t, s.hold.id);
    }
  }

  lemma AgreementAcrossEngineDelete(s: Sys, t: Sys, id: string)
    requires WellFormed(s.mem) && Agreement(s) && t.mem == Apply(s.mem, EngineDelete(id)) && id !in s.mem.agents
    requires EngineIds(s) == s.mem.agents.Keys + {id} && EngineIds(t) == t.mem.agents.Keys && !t.hold.UnregisterEngine?
    ensures WellFormed(t.mem) && Agreement(t)
  {
    assert t.mem.eng.agents.Keys == s.mem.agents.Keys;
  }

  lemma AgreementAcrossSave(s: Sys, t: Sys, l: Label)
    requires WellFormed(s.mem) && Agreement(s) && SaveFrame(s, t, l)
    ensures WellFormed(t.mem) && Agreement(t)
  {
    SaveTouchesOnlyFiles(s, t, l);
    AgreementWithNewFiles(s, t);
  }

  lemma AgreementWithNewFiles(s: Sys, t: Sys)
    requires WellFormed(s.mem) && Agreement(s) && t.mem == s.mem.(disk := t.mem.disk)
    requires s.hold.Saving? || s.hold.Filling? || s.hold.Renaming?
    requires t.hold.Filling? || t.hold.Renaming? || t.hold.Logging?
    ensures WellFormed(t.mem) && Agreement(t)
  {
  }

  lemma AgreementAcrossQuiet(s: Sys, t: Sys, l: Label, event: Option<Event>)
    requires WellFormed(s.mem) && Agreement(s) && QuietFrame(s, t, l, event) && (l.LogOp? ==> s.hold.Logging?)
    ensures WellFormed(t.mem) && Agreement(t)
  {
  }

  lemma AgreementAcrossLifetime(c: Config, s: Sys, t: Sys, readable: bool)
    requires Shape(c, s) && Agreement(s) && (BootFrame(s, t) || OpenFrame(s, t, readable) || CrashFrame(s, t))
    ensures WellFormed(t.mem) && Agreement(t)
  {
  }

  lemma AgreementKept(c: Config, s: Sys, l: Label)
    requires Shape(c, s) && Agreement(s) && Enabled(c, s, l)
    ensures WellFormed(Next(c, s, l).mem) && Agreement(Next(c, s, l))
  {
    var t := Next(c, s, l);
    if Writes(l) {
      WriteStep(c, s, l);
      AgreementAcrossWrite(s, t, WriteOf(s, l));
    } else if Saves(l) {
      SaveStep(c, s, l);
      AgreementAcrossSave(s, t, l);
    } else if Quiet(l) {
      QuietStep(c, s, l);
      AgreementAcrossQuiet(s, t, l, Appended(c, s, l));
    } else if l.RestoreStep? {
      RestoringStep(c, s, l);
      AgreementAcrossRestore(c, s, t);
    } else if l.Register? {
      RegisterStep(c, s, l);
      if RegisterAccepted(c, s.mem, l) {
        AgreementAcrossRegister(s, t, NewRecord(c.root, l.id, l.profile, l.now), l.execPath);
      }
    } else if l.Unregister? {
      UnregisterStep(c, s, l);
      if t != s {
        AgreementAcrossUnregister(s, t, l.id);
      }
    } else if l.EngineStep? {
      EngineHalfStep(c, s, l);
      AgreementAcrossEngineHalf(c, s, t);
    } else {
      LifetimeStep(c, s, l);
      AgreementAcrossLifetime(c, s, t, ReadableOf(l));
    }
  }

  // ----- Registry file, step by step -----

  lemma DiskAcrossWrite(s: Sys, t: Sys, write: Option<(nat, Change)>)
    requires WellFormed(s.mem) && DiskOk(s) && WriteFrame(s, t, write)
    ensures WellFormed(t.mem) && DiskOk(t)
  {
    WriteKeepsRecords(s, t, write);
    SameDurable(s.mem, t.mem);
  }

  lemma SameDurable(m: Mem, n: Mem)
    requires WellFormed(m) && SameButState(m, n)
    ensures WellFormed(n) && Durable(Agents(n)) == Durable(Agents(m))
  {
    SameButStateKeeps(m, n);
  }

  lemma SaveSteps(c: Config, s: Sys, t: Sys, l: Label)
    requires WellFormed(s.mem) && KeyedById(Agents(s.mem)) && DiskOk(s) && SaveFrame(s, t, l)
    requires t.mem == s.mem.(disk := t.mem.disk)
    ensures WellFormed(t.mem) && FileOk(t) && SaveOk(t)
  {
    SameAgents(s.mem, t.mem);
    if l.SaveOpen? {
      SavedEntriesListTheAgents(l.order, Agents(s.mem));
    }
  }

  lemma SameAgents(m: Mem, n: Mem)
    requires WellFormed(m) && n == m.(disk := n.disk)
    ensures WellFormed(n) && Agents(n) == Agents(m)
  {
  }

  lemma KeysAreIds(c: Config, m: Mem, born: nat)
    requires MemOk(c, m, born)
    ensures KeyedById(Agents(m))
  {
  }

  lemma DiskAcrossSave(c: Config, s: Sys, t: Sys, l: Label)
    requires Shape(c, s) && DiskOk(s) && SaveFrame(s, t, l)
    ensures WellFormed(t.mem) && DiskOk(t)
  {
    SaveTouchesOnlyFiles(s, t, l);
    KeysAreIds(c, s.mem, s.hist.born);
    SaveSteps(c, s, t, l);
    SameAgents(s.mem, t.mem);
  }

  /** A proper listing never makes the load loop skip an entry. */
  lemma NothingIsSkipped(s: Sys, rest: seq<Entry>)
    requires WellFormed(s.mem) && HalfRestored(s, rest) && rest != []
    ensures rest[0].id !in s.mem.agents
    ensures rest[0].id in s.hist.saved && s.hist.saved[rest[0].id] == rest[0]
  {
  }

  lemma ListWithoutFirst(entries: seq<Entry>, reg: map<string, Entry>)
    requires Lists(entries, reg) && entries != []
    ensures Lists(entries[1..], reg - {entries[0].id})
  {
    var rest, smaller := entries[1..], reg - {entries[0].id};
    assert forall i :: 0 <= i < |rest| ==> rest[i] == entries[i + 1];
    forall id | id in smaller
      ensures exists i :: 0 <= i < |rest| && rest[i].id == id
    {
      var i :| 0 <= i < |entries| && entries[i].id == id;
      assert rest[i - 1].id == id;
    }
  }

  lemma RestoredCompletely(s: Sys)
    requires WellFormed(s.mem) && HalfRestored(s, [])
    ensures Agents(s.mem) == RestoredAll(s.hist.saved)
    ensures Durable(Agents(s.mem)) == s.hist.saved
  {
    var left := s.hist.saved - s.mem.agents.Keys;
    forall id | id in s.hist.saved ensures id in s.mem.agents {
      assert id !in left;
    }
    DurableOfRestored(s.hist.saved);
  }

  lemma DiskAcrossRestoreEnd(s: Sys, t: Sys)
    requires WellFormed(s.mem) && DiskOk(s) && RestoreFrame(s, t) && s.hold.rest == []
    ensures WellFormed(t.mem) && DiskOk(t)
  {
    RestoredCompletely(s);
  }

  lemma DiskAcrossRestoreNext(s: Sys, t: Sys)
    requires WellFormed(s.mem) && DiskOk(s) && RestoreFrame(s, t) && s.hold.rest != []
    ensures WellFormed(t.mem) && DiskOk(t)
  {
    var rest := s.hold.rest;
    NothingIsSkipped(s, rest);
    ListWithoutFirst(rest, s.hist.saved - s.mem.agents.Keys);
    assert s.hist.saved - s.mem.agents.Keys - {rest[0].id} == s.hist.saved - t.mem.agents.Keys;
    assert rest[0].id !in Durable(Agents(s.mem));
  }

  lemma DiskAcrossMapChange(s: Sys, t: Sys)
    requires WellFormed(s.mem) && DiskOk(s) && WellFormed(t.mem)
    requires t.mem.disk == s.mem.disk && t.hist.saved == s.hist.saved && !t.hist.synced
    requires t.hold.RegisterEngine? || t.hold.UnregisterEngine?
    ensures DiskOk(t)
  {
  }

  lemma DiskAcrossEngineHalf(s: Sys, t: Sys)
    requires WellFormed(s.mem) && DiskOk(s) && EngineFrame(s, t)
    ensures WellFormed(t.mem) && DiskOk(t)
  {
    assert Agents(t.mem) == Agents(s.mem);
  }

  lemma DiskAcrossQuiet(s: Sys, t: Sys, l: Label, event: Option<Event>)
    requires WellFormed(s.mem) && DiskOk(s) && QuietFrame(s, t, l, event)
    ensures WellFormed(t.mem) && DiskOk(t)
  {
    assert Agents(t.mem) == Agents(s.mem);
  }

  lemma DiskAcrossLifetime(s: Sys, t: Sys, readable: bool)
    requires WellFormed(s.mem) && DiskOk(s) && PhaseOk(s)
    requires (BootFrame(s, t) || OpenFrame(s, t, readable) || CrashFrame(s, t))
    ensures WellFormed(t.mem) && DiskOk(t)
  {
    assert t.mem.agents == map[];
    assert Durable(Agents(t.mem)) == map[];
    assert t.hist.saved - {} == t.hist.saved;
  }

  lemma DiskAcrossRestore(s: Sys, t: Sys)
    requires WellFormed(s.mem) && DiskOk(s) && RestoreFrame(s, t)
    ensures WellFormed(t.mem) && DiskOk(t)
  {
    if s.hold.rest == [] {
      DiskAcrossRestoreEnd(s, t);
    } else {
      DiskAcrossRestoreNext(s, t);
    }
  }

  lemma DiskKeptByMapChange(c: Config, s: Sys, l: Label)
    requires Shape(c, s) && DiskOk(s) && Enabled(c, s, l) && (l.Register? || l.Unregister?)
    ensures WellFormed(Next(c, s, l).mem) && DiskOk(Next(c, s, l))
  {
    var t := Next(c, s, l);
    ShapeKept(c, s, l);
    if l.Register? {
      RegisterStep(c, s, l);
    } else {
      UnregisterStep(c, s, l);
    }
    if t != s {
      DiskAcrossMapChange(s, t);
    }
  }

  lemma DiskKept(c: Config, s: Sys, l: Label)
    requires Shape(c, s) && DiskOk(s) && Enabled(c, s, l)
    ensures WellFormed(Next(c, s, l).mem) && DiskOk(Next(c, s, l))
  {
    var t := Next(c, s, l);
    if Writes(l) {
      WriteStep(c, s, l);
      DiskAcrossWrite(s, t, WriteOf(s, l));
    } else if Saves(l) {
      SaveStep(c, s, l);
      DiskAcrossSave(c, s, t, l);
    } else if Quiet(l) {
      QuietStep(c, s, l);
      DiskAcrossQuiet(s, t, l, Appended(c, s, l));
    } else if l.RestoreStep? {
      RestoringStep(c, s, l);
      DiskAcrossRestore(s, t);
    } else if l.Register? || l.Unregister? {
      DiskKeptByMapChange(c, s, l);
    } else if l.EngineStep? {
      EngineHalfStep(c, s, l);
      DiskAcrossEngineHalf(s, t);
    } else {
      LifetimeStep(c, s, l);
      DiskAcrossLifetime(s, t, ReadableOf(l));
    }
  }
}
