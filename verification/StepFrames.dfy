/** What each kind of step changes and what it leaves, as relations between two states. */
module StepFrames {
  import opened Wrappers
  import opened Records
  import opened Registry
  import opened Memory
  import opened Machine

  // ----- Kinds of steps -----

  predicate Writes(l: Label) {
    l.StartBegin? || l.StartEnd? || l.StopBegin? || l.StopEnd? || l.KillEnd?
  }

  predicate Saves(l: Label) {
    l.SaveOpen? || l.SaveFill? || l.SaveRename?
  }

  predicate Quiet(l: Label) {
    l.LogOp? || l.KillBegin? || l.EvalBegin? || l.EvalEnd? || l.EvalAnswer? || l.Reload? || l.Announce? || l.Note?
  }

  // ----- Relations -----

  /** Start, Stop and Kill: at most one write through a pointer, counted in the history. */
  ghost predicate WriteFrame(s: Sys, t: Sys, write: Option<(nat, Change)>) {
    && t.hold == s.hold && t.phase == s.phase
    && match write
       case None => t.mem == s.mem && t.hist == s.hist
       case Some((ref, change)) =>
         && s.hold == Free
         && t.mem == Apply(s.mem, Update(ref, change))
         && t.hist ==
            if ref < |s.mem.heap| && s.mem.heap[ref].state == Starting then
              (if Takes(change) then s.hist.(overtaken := Bump(s.hist.overtaken, ref)) else s.hist)
            else if change.ToRunning? || change.ToFailed? then s.hist.(late := Bump(s.hist.late, ref))
            else s.hist
  }

  /** The writes of Stop and Kill. */
  predicate Takes(change: Change) {
    change.ToStopping? || change.ToStopped? || change.ToKilled?
  }

  /** The steps of saving: files and the record of the last save. */
  ghost predicate SaveFrame(s: Sys, t: Sys, l: Label) {
    && t.phase == s.phase && t.calls == s.calls
    && match l
       case SaveOpen(order, ok) =>
         && WellFormed(s.mem) && IsOrder(order, s.mem.agents.Keys) && s.hold.Saving? && t.hist == s.hist
         && (if ok then t.mem == Apply(s.mem, TruncateTmp) && t.hold == Filling(s.hold.op, EntriesOf(s.mem, order))
             else t.mem == s.mem && t.hold == Logging(s.hold.op))
       case SaveFill(ok) =>
         && s.hold.Filling? && t.hist == s.hist
         && (if ok then t.mem == Apply(s.mem, FillTmp(s.hold.entries)) && t.hold == Renaming(s.hold.op)
             else t.mem == s.mem && t.hold == Logging(s.hold.op))
       case SaveRename(ok) =>
         && WellFormed(s.mem) && s.hold.Renaming? && t.hold == Logging(s.hold.op)
         && (if ok then t.mem == Apply(s.mem, RenameTmp)
            && t.hist == s.hist.(saved := Durable(Agents(s.mem)), synced := true)
             else t.mem == s.mem && t.hist == s.hist)
       case _ => false
  }

  /** Steps that touch only the log, the query map and the calls in flight. */
  ghost predicate QuietFrame(s: Sys, t: Sys, l: Label, event: Option<Event>) {
    && t.phase == s.phase
    && t.hold == (if l.LogOp? then Free else s.hold)
    && t.hist == s.hist.(loaded := t.hist.loaded)
    && t.mem == s.mem.(log := s.mem.log + (match event case Some(e) => [e] case None => []),
                       eng := s.mem.eng.(queries := t.mem.eng.queries))
  }

  ghost predicate RegisterFrame(s: Sys, t: Sys, record: AgentRecord, execPath: string) {
    && s.phase == Up && s.hold == Free && record.id !in s.mem.agents
    && t.mem == Apply(s.mem, Insert(record.id, NewRuntime(record, execPath)))
    && t.hold == RegisterEngine(record) && t.phase == s.phase && t.calls == s.calls
    && t.hist == s.hist.(synced := false)
  }

  ghost predicate UnregisterFrame(s: Sys, t: Sys, id: string) {
    && s.phase == Up && s.hold == Free && id in s.mem.agents
    && t.mem == Apply(s.mem, Delete(id))
    && t.hold == UnregisterEngine(id) && t.phase == s.phase && t.calls == s.calls && t.hist == s.hist.(synced := false)
  }

  ghost predicate EngineFrame(s: Sys, t: Sys) {
    && t.phase == s.phase && t.calls == s.calls && t.hist == s.hist
    && match s.hold
       case RestoreEngine(record, rest) => t.mem == Apply(s.mem, EngineInsert(record)) && t.hold == RestoreNext(rest)
       case RegisterEngine(record) => t.mem == Apply(s.mem, EngineInsert(record))
         && t.hold == Saving(Registering(record.id))
       case UnregisterEngine(id) => t.mem == Apply(s.mem, EngineDelete(id)) && t.hold == Saving(Unregistering(id))
       case _ => false
  }

  ghost predicate RestoreFrame(s: Sys, t: Sys) {
    && s.hold.RestoreNext? && s.phase == Restoring && t.calls == s.calls
    && var rest := s.hold.rest;
       if rest == [] then t.mem == s.mem && t.hold == Free && t.phase == Up && t.hist == s.hist.(synced := true)
       else
         && t.phase == Restoring && t.hist == s.hist.(base := s.hist.base + {rest[0].id})
         && (if rest[0].id in s.mem.agents then t.mem == s.mem && t.hold == RestoreNext(rest[1..])
             else && t.mem == Apply(s.mem, Insert(rest[0].id, Restored(rest[0])))
                  && t.hold == RestoreEngine(ToAgentRecord(rest[0]), rest[1..]))
  }

  ghost predicate BootFrame(s: Sys, t: Sys) {
    && s.phase == Down && t.phase == Booted && t.hold == s.hold && t.calls == s.calls
    && t.hist == s.hist.(loaded := t.hist.loaded)
    && t.mem == s.mem.(eng := s.mem.eng.(queries := t.hist.loaded))
    && t.hist.loaded.Keys == PROFILE_SET
  }

  ghost predicate OpenFrame(s: Sys, t: Sys, readable: bool) {
    && s.phase == Booted && t.mem == s.mem && t.calls == s.calls
    && match LoadRegistry(s.mem.disk, readable)
       case Ok(entries) => t.hold == RestoreNext(entries) && t.phase == Restoring && t.hist == s.hist
       case Err(_) => t.hold == Free && t.phase == Up && t.hist == s.hist.(synced := s.hist.saved == map[])
  }

  ghost predicate CrashFrame(s: Sys, t: Sys) {
    && t == Sys(Lost(s.mem), Down, Free, map[],
                s.hist.(base := {}, logBase := |s.mem.log|, born := |s.mem.heap|, synced := s.hist.saved == map[]))
  }

  // ----- Every step is in its frame -----

  /** A step changes memory by at most one act. */
  lemma MemoryOfStep(c: Config, s: Sys, l: Label)
    requires WellFormed(s.mem) && Enabled(c, s, l)
    ensures var acts := ActsOf(c, s, l);
      Next(c, s, l).mem == if l.Crash? then Lost(s.mem) else if acts == [] then s.mem else Apply(s.mem, acts[0])
  {
    var acts := ActsOf(c, s, l);
    assert |acts| <= 1;
    if acts != [] {
      assert acts == [acts[0]];
      ApplyOne(s.mem, acts[0]);
    }
  }

  lemma WriteStep(c: Config, s: Sys, l: Label)
    requires WellFormed(s.mem) && Enabled(c, s, l) && Writes(l)
    ensures WriteFrame(s, Next(c, s, l), WriteOf(s, l))
    ensures match WriteOf(s, l)
            case None => !l.StartEnd?
            case Some((ref, change)) =>
              && (change.ToRunning? || change.ToFailed? <==> l.StartEnd?)
              && (change.ToStarting? <==> l.StartBegin?)
              && (l.StartBegin? && ref < |s.mem.heap| ==> s.mem.heap[ref].state != Starting)
  {
    MemoryOfStep(c, s, l);
  }

  lemma SaveStep(c: Config, s: Sys, l: Label)
    requires WellFormed(s.mem) && Enabled(c, s, l) && Saves(l)
    ensures SaveFrame(s, Next(c, s, l), l)
  {
    MemoryOfStep(c, s, l);
  }

  /** The event a quiet step appends. */
  ghost function Appended(c: Config, s: Sys, l: Label): Option<Event>
    requires WellFormed(s.mem) && Enabled(c, s, l) && Quiet(l)
  {
    match l
    case LogOp => Some(OpEvent(s.hold.op))
    case EvalAnswer(k) => if s.calls[k].answer.Ok? then Some(ActionEvent(s.calls[k].action, s.calls[k].answer.value))
      else None
    case Announce(k) => Some(s.calls[k].event)
    case Note(event) => Some(event)
    case _ => None
  }

  lemma QuietStep(c: Config, s: Sys, l: Label)
    requires WellFormed(s.mem) && Enabled(c, s, l) && Quiet(l)
    ensures QuietFrame(s, Next(c, s, l), l, Appended(c, s, l))
  {
    MemoryOfStep(c, s, l);
  }

  lemma RegisterStep(c: Config, s: Sys, l: Label)
    requires WellFormed(s.mem) && Enabled(c, s, l) && l.Register?
    ensures var t := Next(c, s, l);
      if RegisterAccepted(c, s.mem, l) then RegisterFrame(s, t, NewRecord(c.root, l.id, l.profile, l.now), l.execPath)
        else t == s
  {
    MemoryOfStep(c, s, l);
  }

  lemma UnregisterStep(c: Config, s: Sys, l: Label)
    requires WellFormed(s.mem) && Enabled(c, s, l) && l.Unregister?
    ensures var t := Next(c, s, l);
      if l.id in s.mem.agents && CanUnregister(s.mem.heap[s.mem.agents[l.id]].state) then UnregisterFrame(s, t, l.id)
      else t == s
  {
    MemoryOfStep(c, s, l);
  }

  lemma EngineHalfStep(c: Config, s: Sys, l: Label)
    requires WellFormed(s.mem) && Enabled(c, s, l) && l.EngineStep?
    ensures EngineFrame(s, Next(c, s, l))
  {
    MemoryOfStep(c, s, l);
  }

  lemma RestoringStep(c: Config, s: Sys, l: Label)
    requires WellFormed(s.mem) && Enabled(c, s, l) && l.RestoreStep?
    ensures RestoreFrame(s, Next(c, s, l))
  {
    MemoryOfStep(c, s, l);
  }

  function ReadableOf(l: Label): bool {
    l.LoadOpen? && l.readable
  }

  lemma LifetimeStep(c: Config, s: Sys, l: Label)
    requires WellFormed(s.mem) && Enabled(c, s, l) && (l.Boot? || l.LoadOpen? || l.Crash?)
    ensures var t := Next(c, s, l);
      && (l.Boot? ==> BootFrame(s, t))
      && (l.LoadOpen? ==> OpenFrame(s, t, ReadableOf(l)))
      && (l.Crash? ==> CrashFrame(s, t))
  {
    MemoryOfStep(c, s, l);
  }

  // ----- What writes keep -----

  /** Only states, times and reasons of objects and the last starts of their own records differ. */
  ghost predicate SameButState(m: Mem, n: Mem) {
    && n == m.(heap := n.heap, eng := m.eng.(cells := n.eng.cells))
    && |n.heap| == |m.heap| && |n.eng.cells| == |m.eng.cells|
    && (forall r :: 0 <= r < |m.heap| ==> n.heap[r].cell == m.heap[r].cell && n.heap[r].execPath == m.heap[r].execPath)
    && (forall cell :: 0 <= cell < |m.eng.cells| ==>
          && n.eng.cells[cell] == m.eng.cells[cell].(lastStartedAt := n.eng.cells[cell].lastStartedAt)
          && (Unowned(m, cell) ==> n.eng.cells[cell] == m.eng.cells[cell]))
  }

  /**
   * A write reaches no durable field, no map, no record field but the last start, and no record but its own object's.
   */
  lemma WriteKeepsRecords(s: Sys, t: Sys, write: Option<(nat, Change)>)
    requires WellFormed(s.mem) && WriteFrame(s, t, write)
    ensures SameButState(s.mem, t.mem)
    ensures t.hist == s.hist.(overtaken := t.hist.overtaken, late := t.hist.late)
    ensures s.hold != Free ==> t.mem == s.mem
  {
  }

  lemma SameButStateKeeps(m: Mem, n: Mem)
    requires WellFormed(m) && SameButState(m, n)
    ensures WellFormed(n)
    ensures forall r :: 0 <= r < |m.heap| ==> ToEntry(At(n, r)) == ToEntry(At(m, r))
    ensures forall cell: nat :: Unowned(m, cell) <==> Unowned(n, cell)
    ensures Separate(m) ==> Separate(n)
  {
    forall cell: nat ensures Unowned(m, cell) <==> Unowned(n, cell) {
      assert forall r :: 0 <= r < |m.heap| ==> n.heap[r].cell == m.heap[r].cell;
    }
  }
}
