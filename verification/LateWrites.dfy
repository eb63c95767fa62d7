/** Start and Stop write their result through a pointer they captured earlier; what that can and cannot reach. */
module LateWrites {
  import opened Wrappers
  import opened Memory
  import opened Machine
  import opened StepFrames
  import opened Footprints
  import opened MachineInvariants
  import opened Lifetimes
  import E = EngineState

  /** An allocated object that no id leads to. */
  ghost predicate Removed(m: Mem, ref: nat) {
    ref < |m.heap| && forall id :: id in m.agents ==> m.agents[id] != ref
  }

  /** A removed object never enters the map again, through any number of steps, registrations and restarts. */
  lemma {:induction false} RemovedStaysRemoved(c: Config, states: seq<Sys>, labels: seq<Label>, i: nat, j: nat,
                                               ref: nat)
    requires Behavior(c, states, labels) && i <= j < |states| && Removed(states[i].mem, ref)
    ensures Removed(states[j].mem, ref)
    decreases j
  {
    if i < j {
      RemovedStaysRemoved(c, states, labels, i, j - 1, ref);
      RunTouches(c, states, labels, j - 1);
    }
  }

  lemma UnregisterRemoves(c: Config, s: Sys, id: string)
    requires Shape(c, s) && Enabled(c, s, Unregister(id)) && id in s.mem.agents
    requires id !in Next(c, s, Unregister(id)).mem.agents
    ensures Removed(Next(c, s, Unregister(id)).mem, s.mem.agents[id])
  {
    UnregisterStep(c, s, Unregister(id));
  }

  lemma RemovedByUnregister(c: Config, states: seq<Sys>, labels: seq<Label>, i: nat, id: string)
    requires Behavior(c, states, labels) && i < |labels| && labels[i] == Unregister(id)
    requires id in states[i].mem.agents && id !in states[i + 1].mem.agents
    ensures Removed(states[i + 1].mem, states[i].mem.agents[id])
  {
    CoreAlways(c, states, labels, i);
    assert StepAt(c, states, labels, i);
    UnregisterRemoves(c, states[i], id);
  }

  /** A write to a removed object is seen by nobody: every registered agent, the engine's records and the disk stay. */
  lemma WriteToRemoved(s: Sys, t: Sys, ref: nat, change: Change)
    requires WellFormed(s.mem) && Separate(s.mem) && Removed(s.mem, ref) && WriteFrame(s, t, Some((ref, change)))
    ensures WellFormed(t.mem) && Agents(t.mem) == Agents(s.mem)
    ensures E.RecordsOf(t.mem.eng) == E.RecordsOf(s.mem.eng)
    ensures t.mem == s.mem.(heap := t.mem.heap, eng := s.mem.eng.(cells := t.mem.eng.cells))
  {
    WriteKeepsRecords(s, t, Some((ref, change)));
    SameButStateKeeps(s.mem, t.mem);
    forall id | id in s.mem.agents
      ensures At(t.mem, s.mem.agents[id]) == At(s.mem, s.mem.agents[id])
    {
      OtherObjectStays(s.mem, ref, change, s.mem.agents[id]);
    }
  }

  /** A write reaches neither the fields nor the record of another object. */
  lemma OtherObjectStays(m: Mem, ref: nat, change: Change, other: nat)
    requires WellFormed(m) && Separate(m) && ref < |m.heap| && other < |m.heap| && other != ref
    ensures var n := Apply(m, Update(ref, change));
      other < |n.heap| && n.heap[other].cell < |n.eng.cells| && At(n, other) == At(m, other)
  {
  }

  /**
   * If the agent is unregistered while a Start or Stop on it is in flight, then whenever that call writes its result,
   * and however often the id was registered again meanwhile, no registered agent and no record of the engine changes.
   */
  lemma LateWriteChangesNoAgent(c: Config, states: seq<Sys>, labels: seq<Label>, i: nat, j: nat, id: string)
    requires Behavior(c, states, labels) && i < j < |labels|
    requires labels[i] == Unregister(id) && id in states[i].mem.agents && id !in states[i + 1].mem.agents
    requires WellFormed(states[j].mem) && WriteOf(states[j], labels[j]).Some?
    requires WriteOf(states[j], labels[j]).value.0 == states[i].mem.agents[id]
    ensures WellFormed(states[j + 1].mem) && Agents(states[j + 1].mem) == Agents(states[j].mem)
    ensures E.RecordsOf(states[j + 1].mem.eng) == E.RecordsOf(states[j].mem.eng)
    ensures states[j + 1].mem.disk == states[j].mem.disk && states[j + 1].mem.log == states[j].mem.log
  {
    var ref := states[i].mem.agents[id];
    RemovedByUnregister(c, states, labels, i, id);
    RemovedStaysRemoved(c, states, labels, i + 1, j, ref);
    WriteInRun(c, states, labels, j);
    CoreAlways(c, states, labels, j);
    WriteToRemoved(states[j], states[j + 1], ref, WriteOf(states[j], labels[j]).value.1);
  }

  lemma WriteInRun(c: Config, states: seq<Sys>, labels: seq<Label>, j: nat)
    requires Behavior(c, states, labels) && j < |labels| && WellFormed(states[j].mem)
    requires WriteOf(states[j], labels[j]).Some?
    ensures WriteFrame(states[j], states[j + 1], WriteOf(states[j], labels[j]))
  {
    assert StepAt(c, states, labels, j);
    WriteStep(c, states[j], labels[j]);
  }
}
