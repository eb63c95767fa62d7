/** Where agents come from: each one in memory, in the engine or in the file is as some Register of the run made it. */
module Provenance {
  import opened Wrappers
  import opened Records
  import opened Registry
  import opened Memory
  import opened Machine
  import opened StepFrames
  import opened Footprints
  import opened MachineInvariants
  import opened Lifetimes
  import E = EngineState

  /** Step `i` registered, with success, an agent with these durable fields. */
  ghost predicate MadeAt(c: Config, states: seq<Sys>, labels: seq<Label>, i: nat, e: Entry)
    requires i < |labels| && i < |states|
  {
    var l := labels[i];
    && l.Register? && RegisterAccepted(c, states[i].mem, l)
    && e == Entry(l.id, l.profile, c.root + "/" + l.id + "/workspace", l.execPath, [], [], l.now)
  }

  ghost predicate Made(c: Config, states: seq<Sys>, labels: seq<Label>, j: nat, e: Entry)
    requires j <= |labels| && j <= |states|
  {
    exists i :: 0 <= i < j && MadeAt(c, states, labels, i, e)
  }

  /** Every agent in memory, and every one of the last save. */
  ghost predicate Sourced(c: Config, states: seq<Sys>, labels: seq<Label>, j: nat)
    requires j <= |labels| && j < |states|
  {
    var s := states[j];
    && WellFormed(s.mem)
    && (forall id :: id in s.mem.agents ==> Made(c, states, labels, j, ToEntry(At(s.mem, s.mem.agents[id]))))
    && (forall id :: id in s.hist.saved ==> Made(c, states, labels, j, s.hist.saved[id]))
  }

  lemma StillMade(c: Config, states: seq<Sys>, labels: seq<Label>, j: nat, e: Entry)
    requires j < |labels| && j < |states| && Made(c, states, labels, j, e)
    ensures Made(c, states, labels, j + 1, e)
  {
    var i :| 0 <= i < j && MadeAt(c, states, labels, i, e);
    assert MadeAt(c, states, labels, i, e);
  }

  // ----- What one step does to durable fields -----

  /** Every agent of `n` is one of `m`, with the same durable fields. */
  ghost predicate NoneNew(m: Mem, n: Mem)
    requires WellFormed(m) && WellFormed(n)
  {
    forall id :: id in n.agents ==> id in m.agents && ToEntry(At(n, n.agents[id])) == ToEntry(At(m, m.agents[id]))
  }

  lemma NoneNewInWrite(s: Sys, t: Sys, l: Label)
    requires Touched(s, t, l) && Writes(l) && WellFormed(s.mem)
    ensures WellFormed(t.mem) && NoneNew(s.mem, t.mem) && t.hist.saved == s.hist.saved
  {
    SameButStateKeeps(s.mem, t.mem);
  }

  lemma NoneNewInOthers(s: Sys, t: Sys, l: Label)
    requires Touched(s, t, l) && WellFormed(s.mem) && WellFormed(t.mem)
    requires !Writes(l) && !l.Register? && !l.Unregister? && !l.RestoreStep?
    ensures NoneNew(s.mem, t.mem)
    ensures t.hist.saved == s.hist.saved || t.hist.saved == Durable(Agents(s.mem))
  {
  }

  lemma NoneNewInUnregister(s: Sys, t: Sys, id: string)
    requires WellFormed(s.mem) && (t == s || UnregisterFrame(s, t, id))
    ensures WellFormed(t.mem) && NoneNew(s.mem, t.mem) && t.hist.saved == s.hist.saved
  {
  }

  /** An insertion adds one agent. */
  lemma OneNew(m: Mem, id: string, ra: Runtime)
    requires WellFormed(m)
    ensures var n := Apply(m, Insert(id, ra));
      && WellFormed(n) && n.agents.Keys == m.agents.Keys + {id} && At(n, n.agents[id]) == ra
      && forall other :: other in m.agents && other != id ==> At(n, n.agents[other]) == At(m, m.agents[other])
  {
  }

  // ----- Runs -----

  lemma SourcedIfNoneNew(c: Config, states: seq<Sys>, labels: seq<Label>, j: nat)
    requires j < |labels| && j + 1 < |states| && Sourced(c, states, labels, j)
    requires WellFormed(states[j + 1].mem) && NoneNew(states[j].mem, states[j + 1].mem)
    requires var saved := states[j + 1].hist.saved;
      saved == states[j].hist.saved || saved == Durable(Agents(states[j].mem))
    ensures Sourced(c, states, labels, j + 1)
  {
    var s, t := states[j], states[j + 1];
    forall id | id in t.mem.agents
      ensures Made(c, states, labels, j + 1, ToEntry(At(t.mem, t.mem.agents[id])))
    {
      StillMade(c, states, labels, j, ToEntry(At(s.mem, s.mem.agents[id])));
    }
    forall id | id in t.hist.saved
      ensures Made(c, states, labels, j + 1, t.hist.saved[id])
    {
      StillMade(c, states, labels, j, t.hist.saved[id]);
    }
  }

  lemma SourcedIfOneNew(c: Config, states: seq<Sys>, labels: seq<Label>, j: nat, id: string, ra: Runtime)
    requires j < |labels| && j + 1 < |states| && Sourced(c, states, labels, j)
    requires states[j + 1].mem == Apply(states[j].mem, Insert(id, ra))
    requires states[j + 1].hist.saved == states[j].hist.saved && Made(c, states, labels, j + 1, ToEntry(ra))
    ensures Sourced(c, states, labels, j + 1)
  {
    var s, t := states[j], states[j + 1];
    OneNew(s.mem, id, ra);
    forall other | other in t.mem.agents
      ensures Made(c, states, labels, j + 1, ToEntry(At(t.mem, t.mem.agents[other])))
    {
      if other != id {
        StillMade(c, states, labels, j, ToEntry(At(s.mem, s.mem.agents[other])));
      }
    }
    forall other | other in t.hist.saved
      ensures Made(c, states, labels, j + 1, t.hist.saved[other])
    {
      StillMade(c, states, labels, j, t.hist.saved[other]);
    }
  }

  lemma SourcedInRegister(c: Config, states: seq<Sys>, labels: seq<Label>, j: nat)
    requires Behavior(c, states, labels) && j < |labels| && labels[j].Register? && Sourced(c, states, labels, j)
    ensures Sourced(c, states, labels, j + 1)
  {
    var s, l := states[j], labels[j];
    assert StepAt(c, states, labels, j);
    RegisterStep(c, s, l);
    if RegisterAccepted(c, s.mem, l) {
      var record := NewRecord(c.root, l.id, l.profile, l.now);
      assert MadeAt(c, states, labels, j, ToEntry(NewRuntime(record, l.execPath)));
      SourcedIfOneNew(c, states, labels, j, l.id, NewRuntime(record, l.execPath));
    } else {
      SourcedIfNoneNew(c, states, labels, j);
    }
  }

  /** What is restored was saved. */
  lemma RestoredWasSaved(s: Sys)
    requires WellFormed(s.mem) && DiskOk(s) && s.hold.RestoreNext? && s.hold.rest != []
    ensures s.hold.rest[0].id in s.hist.saved && s.hist.saved[s.hold.rest[0].id] == s.hold.rest[0]
    ensures ToEntry(Restored(s.hold.rest[0])) == s.hold.rest[0]
  {
    assert Lists(s.hold.rest, s.hist.saved - s.mem.agents.Keys);
  }

  lemma SourcedInRestore(c: Config, states: seq<Sys>, labels: seq<Label>, j: nat)
    requires Behavior(c, states, labels) && j < |labels| && labels[j].RestoreStep? && Sourced(c, states, labels, j)
    ensures Sourced(c, states, labels, j + 1)
  {
    var s := states[j];
    assert StepAt(c, states, labels, j);
    CoreAlways(c, states, labels, j);
    RestoringStep(c, s, labels[j]);
    if s.hold.rest != [] && s.hold.rest[0].id !in s.mem.agents {
      var e := s.hold.rest[0];
      RestoredWasSaved(s);
      StillMade(c, states, labels, j, e);
      SourcedIfOneNew(c, states, labels, j, e.id, Restored(e));
    } else {
      SourcedIfNoneNew(c, states, labels, j);
    }
  }

  lemma SourcedInOthers(c: Config, states: seq<Sys>, labels: seq<Label>, j: nat)
    requires Behavior(c, states, labels) && j < |labels| && Sourced(c, states, labels, j)
    requires !labels[j].Register? && !labels[j].RestoreStep?
    ensures Sourced(c, states, labels, j + 1)
  {
    var s, l, t := states[j], labels[j], states[j + 1];
    assert StepAt(c, states, labels, j);
    CoreAlways(c, states, labels, j + 1);
    StepTouches(c, s, l, t);
    if Writes(l) {
      NoneNewInWrite(s, t, l);
    } else if l.Unregister? {
      UnregisterStep(c, s, l);
      NoneNewInUnregister(s, t, l.id);
    } else {
      NoneNewInOthers(s, t, l);
    }
    SourcedIfNoneNew(c, states, labels, j);
  }

  lemma {:induction false} SourcedAlways(c: Config, states: seq<Sys>, labels: seq<Label>, j: nat)
    requires Behavior(c, states, labels) && j < |states|
    ensures Sourced(c, states, labels, j)
    decreases j
  {
    if j > 0 {
      SourcedAlways(c, states, labels, j - 1);
      if labels[j - 1].Register? {
        SourcedInRegister(c, states, labels, j - 1);
      } else if labels[j - 1].RestoreStep? {
        SourcedInRestore(c, states, labels, j - 1);
      } else {
        SourcedInOthers(c, states, labels, j - 1);
      }
    }
  }

  /**
   * Over all lifetimes: an agent in memory has the profile, executable, workspace and registration time of an accepted
   * Register of that id, and the engine's record of it has the same.
   */
  lemma EveryAgentWasRegistered(c: Config, states: seq<Sys>, labels: seq<Label>, j: nat, id: string)
    requires Behavior(c, states, labels) && j < |states| && id in states[j].mem.agents
    ensures exists i :: 0 <= i < j && labels[i].Register? && RegisterAccepted(c, states[i].mem, labels[i])
                        && labels[i].id == id && AgentIs(c, states[j].mem, labels[i])
  {
    SourcedAlways(c, states, labels, j);
    CapacityAndNames(c, states, labels, j);
    ManagerAndEngineAgree(c, states, labels, j);
    var m := states[j].mem;
    var e := ToEntry(At(m, m.agents[id]));
    assert Agents(m)[id].record.id == id;
    var i :| 0 <= i < j && MadeAt(c, states, labels, i, e);
    assert labels[i].id == id && AgentIs(c, m, labels[i]);
  }

  /** The agent that `l` registers is in memory as it was registered, but for what Start, Stop and Kill wrote since. */
  ghost predicate AgentIs(c: Config, m: Mem, l: Label)
    requires l.Register?
  {
    && WellFormed(m) && l.id in m.agents
    && var record := AgentRecord(l.id, l.profile, c.root + "/" + l.id + "/workspace", [], [], l.now, None);
       && Agents(m)[l.id].record.(lastStartedAt := None) == record && Agents(m)[l.id].execPath == l.execPath
       && (l.id in m.eng.agents ==> E.RecordsOf(m.eng)[l.id] == record)
  }

  /** And so has every entry of the registry file, whatever was saved, lost or restored. */
  lemma EveryEntryWasRegistered(c: Config, states: seq<Sys>, labels: seq<Label>, j: nat, k: nat)
    requires Behavior(c, states, labels) && j < |states|
    requires var file := LoadRegistry(states[j].mem.disk, true); file.Ok? && k < |file.value|
    ensures var e := LoadRegistry(states[j].mem.disk, true).value[k];
      exists i :: 0 <= i < j && labels[i].Register? && RegisterAccepted(c, states[i].mem, labels[i])
                  && e == Entry(labels[i].id, labels[i].profile, c.root + "/" + labels[i].id + "/workspace",
                                labels[i].execPath, [], [], labels[i].now)
  {
    SourcedAlways(c, states, labels, j);
    RegistryFileIsComplete(c, states, labels, j);
    var e := LoadRegistry(states[j].mem.disk, true).value[k];
    assert states[j].hist.saved[e.id] == e;
    var i :| 0 <= i < j && MadeAt(c, states, labels, i, e);
  }
}
