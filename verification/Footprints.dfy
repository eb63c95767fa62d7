/** What each step can touch at most, said without the step itself; most theorems about runs need no more than this. */
module Footprints {
  import opened Records
  import opened Registry
  import opened Memory
  import opened Machine
  import opened StepFrames

  /** The maps may change, and objects and records may be added: at most one object, idle, under at most one new key. */
  ghost predicate Grows(m: Mem, n: Mem) {
    && n == m.(agents := n.agents, heap := n.heap, eng := n.eng)
    && n.eng.queries == m.eng.queries && m.heap <= n.heap && m.eng.cells <= n.eng.cells
    && (forall r :: |m.heap| <= r < |n.heap| ==> n.heap[r].state == Registered)
    && (forall id :: id in n.agents ==> (id in m.agents && n.agents[id] == m.agents[id]) || n.agents[id] == |m.heap|)
  }

  /** Only the log and the queries change, the log by growing, the queries by a reload that succeeds. */
  ghost predicate Logs(s: Sys, t: Sys, l: Label) {
    && t.mem == s.mem.(log := t.mem.log, eng := s.mem.eng.(queries := t.mem.eng.queries)) && s.mem.log <= t.mem.log
    && t.phase == s.phase && t.hist == s.hist.(loaded := t.hist.loaded)
    && (if l.Reload? && l.reloaded.Some? then
          && t.mem.eng.queries == l.reloaded.value && t.hist.loaded == l.reloaded.value
          && l.reloaded.value.Keys == PROFILE_SET
        else t.mem.eng.queries == s.mem.eng.queries && t.hist.loaded == s.hist.loaded)
  }

  /** Only the files change, the registry itself only by the rename. */
  ghost predicate SavesFiles(s: Sys, t: Sys, l: Label) {
    && t.mem == s.mem.(disk := t.mem.disk) && t.phase == s.phase
    && (if l == SaveRename(true) then
          && WellFormed(s.mem) && t.hist == s.hist.(saved := Durable(Agents(s.mem)), synced := true)
        else t.hist == s.hist && t.mem.disk.file == s.mem.disk.file)
  }

  ghost predicate Touched(s: Sys, t: Sys, l: Label) {
    if Writes(l) then
      && SameButState(s.mem, t.mem) && t.phase == s.phase
      && t.hist == s.hist.(overtaken := t.hist.overtaken, late := t.hist.late)
    else if Saves(l) then SavesFiles(s, t, l)
    else if Quiet(l) then Logs(s, t, l)
    else if l.Boot? then
      && s.phase == Down && t.phase == Booted && l.queries.Keys == PROFILE_SET
      && t.mem == s.mem.(eng := s.mem.eng.(queries := l.queries)) && t.hist == s.hist.(loaded := l.queries)
    else if l.LoadOpen? then
      && s.phase == Booted && t.phase in {Up, Restoring} && t.mem == s.mem && t.hist == s.hist.(synced := t.hist.synced)
    else if l.Crash? then
      && t.mem == Lost(s.mem) && t.phase == Down
      && t.hist == s.hist.(base := {}, logBase := |s.mem.log|, born := |s.mem.heap|, synced := t.hist.synced)
    else
      && Grows(s.mem, t.mem) && t.hist == s.hist.(base := t.hist.base, synced := t.hist.synced)
      && (if l.RestoreStep? then s.phase == Restoring && t.phase in {Up, Restoring} else t.phase == s.phase)
      && (l.EngineStep? ==> t.hist == s.hist && t.mem.agents == s.mem.agents)
      && (l.Register? ==> t.mem.agents.Keys <= s.mem.agents.Keys + {l.id})
      && (l.Unregister? ==> t.mem.agents.Keys <= s.mem.agents.Keys)
  }

  lemma WriteTouches(c: Config, s: Sys, l: Label)
    requires WellFormed(s.mem) && Enabled(c, s, l) && Writes(l)
    ensures Touched(s, Next(c, s, l), l)
  {
    WriteStep(c, s, l);
    WriteKeepsRecords(s, Next(c, s, l), WriteOf(s, l));
  }

  lemma SaveTouches(c: Config, s: Sys, l: Label)
    requires WellFormed(s.mem) && Enabled(c, s, l) && Saves(l)
    ensures Touched(s, Next(c, s, l), l)
  {
    SaveStep(c, s, l);
  }

  lemma QuietTouches(c: Config, s: Sys, l: Label)
    requires WellFormed(s.mem) && Enabled(c, s, l) && Quiet(l)
    ensures Touched(s, Next(c, s, l), l)
  {
    QuietStep(c, s, l);
    MemoryOfStep(c, s, l);
  }

  lemma MapsTouch(c: Config, s: Sys, l: Label)
    requires WellFormed(s.mem) && Enabled(c, s, l) && (l.Register? || l.Unregister? || l.EngineStep?)
    ensures Touched(s, Next(c, s, l), l)
  {
    MemoryOfStep(c, s, l);
  }

  lemma LifetimeTouches(c: Config, s: Sys, l: Label)
    requires WellFormed(s.mem) && Enabled(c, s, l) && (l.Boot? || l.LoadOpen? || l.Crash?)
    ensures Touched(s, Next(c, s, l), l)
  {
    MemoryOfStep(c, s, l);
  }

  lemma RestoreTouches(c: Config, s: Sys, l: Label)
    requires WellFormed(s.mem) && Enabled(c, s, l) && l.RestoreStep?
    ensures Touched(s, Next(c, s, l), l)
  {
    RestoringStep(c, s, l);
  }

  /** Every step stays within its footprint. */
  lemma StepTouches(c: Config, s: Sys, l: Label, t: Sys)
    requires Step(c, s, l, t)
    ensures WellFormed(s.mem) && Touched(s, t, l)
  {
    if Writes(l) {
      WriteTouches(c, s, l);
    } else if Saves(l) {
      SaveTouches(c, s, l);
    } else if Quiet(l) {
      QuietTouches(c, s, l);
    } else if l.Register? || l.Unregister? || l.EngineStep? {
      MapsTouch(c, s, l);
    } else if l.RestoreStep? {
      RestoreTouches(c, s, l);
    } else {
      LifetimeTouches(c, s, l);
    }
  }

  lemma RunTouches(c: Config, states: seq<Sys>, labels: seq<Label>, n: nat)
    requires Behavior(c, states, labels) && n < |labels|
    ensures WellFormed(states[n].mem) && Touched(states[n], states[n + 1], labels[n])
  {
    assert StepAt(c, states, labels, n);
    StepTouches(c, states[n], labels[n], states[n + 1]);
  }
}
