/** What stays on disk during a run: the registry between registrations, and other agents' files during a purge. */
module DurableRuns {
  import opened Paths
  import opened Registry
  import opened Memory
  import opened Machine
  import opened StepFrames
  import opened Footprints
  import opened MachineInvariants
  import opened Lifetimes

  // ----- From one registration to the next -----

  ghost predicate InSync(s: Sys) {
    s.phase == Up && s.hist.synced
  }

  predicate MayDesync(l: Label) {
    l.Register? || l.Unregister? || l.Crash?
  }

  lemma {:induction false} SyncFrom(c: Config, states: seq<Sys>, labels: seq<Label>, i: nat, j: nat)
    requires Behavior(c, states, labels) && i <= j <= |labels| && InSync(states[i])
    requires forall n :: i <= n < j ==> !MayDesync(labels[n])
    ensures InSync(states[j])
    decreases j
  {
    if i < j {
      SyncFrom(c, states, labels, i, j - 1);
      RunTouches(c, states, labels, j - 1);
    }
  }

  lemma SavesAreUp(c: Config, s: Sys)
    requires Shape(c, s) && s.hold.Renaming?
    ensures s.phase == Up
  {
  }

  lemma SaveIsUp(c: Config, states: seq<Sys>, labels: seq<Label>, i: nat)
    requires Behavior(c, states, labels) && i < |labels| && labels[i] == SaveRename(true)
    ensures states[i].phase == Up
  {
    CoreAlways(c, states, labels, i);
    assert StepAt(c, states, labels, i);
    SavesAreUp(c, states[i]);
  }

  /**
   * After a successful save the file lists exactly the durable part of memory, through Starts, Stops, Kills,
   * evaluations and reloads, until the next Register, Unregister or crash; so a restart then would bring every agent
   * back.
   */
  lemma FileEqualsMemory(c: Config, states: seq<Sys>, labels: seq<Label>, i: nat, j: nat)
    requires Behavior(c, states, labels) && i < j <= |labels| && labels[i] == SaveRename(true)
    requires forall n :: i < n < j ==> !MayDesync(labels[n])
    ensures var m := states[j].mem; var file := LoadRegistry(m.disk, true);
      && WellFormed(m) && file.Ok? && Lists(file.value, Durable(Agents(m)))
      && LoadAll(map[], file.value) == RestoredAll(Durable(Agents(m)))
  {
    SaveIsUp(c, states, labels, i);
    RunTouches(c, states, labels, i);
    SyncFrom(c, states, labels, i + 1, j);
    RegistryFileIsComplete(c, states, labels, j);
    LoadRebuilds(LoadRegistry(states[j].mem.disk, true).value, Durable(Agents(states[j].mem)));
  }

  // ----- A registry that cannot be read -----

  /**
   * A restart comes up at once, with no agents, exactly when there is a file and it cannot be read. The file is left as
   * it is, so the agents are lost only with the first save that follows, which writes what is registered then.
   */
  lemma UnreadableForgets(c: Config, states: seq<Sys>, labels: seq<Label>, i: nat)
    requires Behavior(c, states, labels) && i < |labels| && labels[i].LoadOpen?
    ensures WellFormed(states[i + 1].mem) && LoadRegistry(states[i + 1].mem.disk, true).Ok?
    ensures var s, t := states[i], states[i + 1];
      && (t.phase == Up <==> s.mem.disk.file.Some? && !ReadableOf(labels[i]))
      && (t.phase == Up ==> Agents(t.mem) == map[] && Lists(LoadRegistry(t.mem.disk, true).value, s.hist.saved))
      && (t.phase != Up ==> t.hold.RestoreNext? && Lists(t.hold.rest, s.hist.saved))
  {
    CoreAlways(c, states, labels, i);
    assert StepAt(c, states, labels, i);
    LifetimeStep(c, states[i], labels[i]);
    OpenForgets(c, states[i], states[i + 1], ReadableOf(labels[i]));
  }

  lemma OpenForgets(c: Config, s: Sys, t: Sys, readable: bool)
    requires Shape(c, s) && DiskOk(s) && OpenFrame(s, t, readable)
    ensures WellFormed(t.mem)
    ensures t.phase == Up <==> s.mem.disk.file.Some? && !readable
    ensures LoadRegistry(t.mem.disk, true).Ok?
    ensures t.phase == Up ==> Agents(t.mem) == map[] && Lists(LoadRegistry(t.mem.disk, true).value, s.hist.saved)
    ensures t.phase != Up ==> t.hold.RestoreNext? && Lists(t.hold.rest, s.hist.saved)
  {
  }

  /** Without a crash or the end of a save, the file of a daemon that is up stays, and only Register adds an id. */
  lemma FileStays(s: Sys, t: Sys, l: Label)
    requires Touched(s, t, l) && s.phase == Up && !l.Crash? && l != SaveRename(true)
    ensures t.phase == Up && t.mem.disk.file == s.mem.disk.file
    ensures t.mem.agents.Keys <= s.mem.agents.Keys + (if l.Register? then {l.id} else {})
  {
  }

  lemma FileStaysInRun(c: Config, states: seq<Sys>, labels: seq<Label>, n: nat)
    requires Behavior(c, states, labels) && n < |labels| && states[n].phase == Up
    requires !labels[n].Crash? && labels[n] != SaveRename(true)
    ensures states[n + 1].phase == Up && states[n + 1].mem.disk.file == states[n].mem.disk.file
    ensures states[n + 1].mem.agents.Keys
         <= states[n].mem.agents.Keys + (if labels[n].Register? then {labels[n].id} else {})
  {
    RunTouches(c, states, labels, n);
    FileStays(states[n], states[n + 1], labels[n]);
  }

  predicate RegisteredBetween(labels: seq<Label>, i: nat, j: nat, id: string)
    requires j <= |labels|
  {
    exists m :: i < m < j && labels[m].Register? && labels[m].id == id
  }

  /** After an unreadable file and until the next save, the file stays and every agent was registered since. */
  lemma {:induction false} UnreadableUntilSave(c: Config, states: seq<Sys>, labels: seq<Label>, i: nat, j: nat)
    requires Behavior(c, states, labels) && i < j <= |labels| && labels[i].LoadOpen? && states[i + 1].phase == Up
    requires forall n :: i < n < j ==> !labels[n].Crash? && labels[n] != SaveRename(true)
    ensures states[j].phase == Up && states[j].mem.disk.file == states[i].mem.disk.file
    ensures forall id :: id in states[j].mem.agents ==> RegisteredBetween(labels, i, j, id)
    decreases j
  {
    if i + 1 == j {
      UnreadableForgets(c, states, labels, i);
      RunTouches(c, states, labels, i);
      CoreAlways(c, states, labels, i);
    } else {
      UnreadableUntilSave(c, states, labels, i, j - 1);
      FileStaysInRun(c, states, labels, j - 1);
      forall id | id in states[j].mem.agents
        ensures RegisteredBetween(labels, i, j, id)
      {
        if id in states[j - 1].mem.agents {
          var m :| i < m < j - 1 && labels[m].Register? && labels[m].id == id;
        } else {
          assert labels[j - 1].Register? && labels[j - 1].id == id;
        }
      }
    }
  }

  /** And that save then drops from the file every agent that was not registered again. */
  lemma UnreadableIsOverwritten(c: Config, states: seq<Sys>, labels: seq<Label>, i: nat, j: nat)
    requires Behavior(c, states, labels) && i < j < |labels| && labels[i].LoadOpen? && states[i + 1].phase == Up
    requires forall n :: i < n < j ==> !labels[n].Crash? && labels[n] != SaveRename(true)
    requires labels[j] == SaveRename(true)
    ensures WellFormed(states[j + 1].mem) && LoadRegistry(states[j + 1].mem.disk, true).Ok?
    ensures Lists(LoadRegistry(states[j + 1].mem.disk, true).value, Durable(Agents(states[j + 1].mem)))
    ensures forall id :: id in states[j + 1].mem.agents ==> RegisteredBetween(labels, i, j, id)
  {
    UnreadableUntilSave(c, states, labels, i, j);
    FileEqualsMemory(c, states, labels, j, j + 1);
    RunTouches(c, states, labels, j);
  }

  // ----- Purges -----

  /** In every state, purging by one agent's recorded path removes its own directory and nothing of any other agent. */
  lemma PurgeHitsOneAgent(c: Config, states: seq<Sys>, labels: seq<Label>, i: nat, id: string, other: string,
                          tree: Tree, p: Clean)
    requires Behavior(c, states, labels) && i < |states| && c.root != "" && id != other
    requires id in states[i].mem.agents && other in states[i].mem.agents
    ensures WellFormed(states[i].mem)
    ensures var agents := Agents(states[i].mem); var purged := Purge(tree, agents[id].record.workspacePath);
      && Dir(agents[id].record.workspacePath) == JoinPath(c.root, id)
      && (p in purged <==> p in tree && !Under(JoinPath(c.root, id), p))
      && (p in tree && Under(Dir(agents[other].record.workspacePath), p) ==> p in purged)
      && (JoinPath(c.root, "registry.json") in tree ==> JoinPath(c.root, "registry.json") in purged)
  {
    CapacityAndNames(c, states, labels, i);
    PurgedDirIsAgentDir(c.root, id);
    PurgedDirIsAgentDir(c.root, other);
    PurgeIsConfined(tree, c.root, id, p);
    PurgeKeepsRegistry(tree, c.root, id);
  }
}
