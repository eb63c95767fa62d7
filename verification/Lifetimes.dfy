/** What holds in every state of every run: crashes, restarts, save failures and all interleavings included. */
module Lifetimes {
  import opened Wrappers
  import opened Records
  import opened Registry
  import opened Memory
  import opened Machine
  import opened StepFrames
  import opened Footprints
  import opened MachineInvariants
  import E = EngineState

  ghost predicate Core(c: Config, s: Sys) {
    Shape(c, s) && Agreement(s) && DiskOk(s)
  }

  lemma CoreInitially(c: Config)
    ensures Core(c, Init)
  {
    assert Durable(Agents(EMPTY)) == map[];
  }

  lemma CoreKept(c: Config, s: Sys, l: Label)
    requires Core(c, s) && Enabled(c, s, l)
    ensures Core(c, Next(c, s, l))
  {
    ShapeKept(c, s, l);
    AgreementKept(c, s, l);
    DiskKept(c, s, l);
  }

  lemma {:induction false} CoreAlways(c: Config, states: seq<Sys>, labels: seq<Label>, i: nat)
    requires Behavior(c, states, labels) && i < |states|
    ensures Core(c, states[i])
    decreases i
  {
    if i == 0 {
      CoreInitially(c);
    } else {
      CoreAlways(c, states, labels, i - 1);
      assert StepAt(c, states, labels, i - 1);
      CoreKept(c, states[i - 1], labels[i - 1]);
    }
  }

  /** In every state of every run no two ids point to the same object. */
  lemma DistinctAlways(c: Config, states: seq<Sys>, labels: seq<Label>, i: nat)
    requires Behavior(c, states, labels) && i < |states|
    ensures Distinct(states[i].mem)
  {
    CoreAlways(c, states, labels, i);
    KeyedIsDistinct(states[i].mem, states[i].hist.born);
  }

  lemma KeyedIsDistinct(m: Mem, born: nat)
    requires WellFormed(m) && KeysOk(m, born)
    ensures Distinct(m)
  {
  }

  /** In every state no runtime agent's record is one the engine, or an evaluation in flight, holds a pointer to. */
  lemma EngineRecordsAreSeparate(c: Config, states: seq<Sys>, labels: seq<Label>, i: nat)
    requires Behavior(c, states, labels) && i < |states|
    ensures WellFormed(states[i].mem) && Separate(states[i].mem)
    ensures forall k :: k in states[i].calls && states[i].calls[k].InEvaluate? ==>
      Unowned(states[i].mem, states[i].calls[k].cell)
  {
    CoreAlways(c, states, labels, i);
    forall k | k in states[i].calls && states[i].calls[k].InEvaluate?
      ensures Unowned(states[i].mem, states[i].calls[k].cell)
    {
      assert CallOk(states[i].mem, states[i].hist.born, states[i].calls[k]);
    }
  }

  // ----- Manager and engine -----

  /**
   * At every instant the id sets of manager and engine differ by at most the id whose registration, removal or
   * restoring is under way; with the manager lock free they are equal and all records agree but for the last start.
   */
  lemma ManagerAndEngineAgree(c: Config, states: seq<Sys>, labels: seq<Label>, i: nat)
    requires Behavior(c, states, labels) && i < |states|
    ensures WellFormed(states[i].mem)
    ensures var m := states[i].mem;
      && (exists id :: m.agents.Keys - {id} <= m.eng.agents.Keys <= m.agents.Keys + {id})
      && (forall id :: id in m.agents && id in m.eng.agents ==>
            E.RecordsOf(m.eng)[id] == Agents(m)[id].record.(lastStartedAt := None))
      && (states[i].hold == Free ==> m.agents.Keys == m.eng.agents.Keys)
  {
    CoreAlways(c, states, labels, i);
    var s := states[i];
    var id := match s.hold
      case RegisterEngine(record) => record.id
      case RestoreEngine(record, _) => record.id
      case UnregisterEngine(id) => id
      case _ => "";
    assert s.mem.agents.Keys - {id} <= s.mem.eng.agents.Keys <= s.mem.agents.Keys + {id};
  }

  // ----- Crash consistency -----

  /**
   * In every state the registry file is absent, with nothing ever saved, or one complete listing of the last
   * successful save; so a readable file always parses. Memory's durable part equals it unless changed since.
   */
  lemma RegistryFileIsComplete(c: Config, states: seq<Sys>, labels: seq<Label>, i: nat)
    requires Behavior(c, states, labels) && i < |states|
    ensures var s := states[i];
      && LoadRegistry(s.mem.disk, true).Ok?
      && Lists(LoadRegistry(s.mem.disk, true).value, s.hist.saved)
      && (LoadRegistry(s.mem.disk, false) != Err(Unparsable))
      && WellFormed(s.mem) && (s.hist.synced ==> Durable(Agents(s.mem)) == s.hist.saved)
  {
    CoreAlways(c, states, labels, i);
  }

  lemma EngineOfRestored(s: Sys)
    requires WellFormed(s.mem) && Agreement(s) && s.hold == Free && Agents(s.mem) == RestoredAll(s.hist.saved)
    ensures E.RecordsOf(s.mem.eng) == (map id | id in s.hist.saved :: ToAgentRecord(s.hist.saved[id]))
  {
    forall id | id in s.hist.saved
      ensures id in s.mem.eng.agents && E.RecordsOf(s.mem.eng)[id] == ToAgentRecord(s.hist.saved[id])
    {
      assert id in Agents(s.mem) && Agents(s.mem)[id] == Restored(s.hist.saved[id]);
    }
  }

  /** When a restart finishes, manager and engine hold exactly the last save: every agent registered and idle. */
  lemma RestartRebuilds(c: Config, states: seq<Sys>, labels: seq<Label>, i: nat)
    requires Behavior(c, states, labels) && i < |labels|
    requires states[i].phase == Restoring && states[i + 1].phase == Up
    ensures var t := states[i + 1];
      && WellFormed(t.mem) && t.hold == Free
      && Agents(t.mem) == RestoredAll(t.hist.saved)
      && E.RecordsOf(t.mem.eng) == (map id | id in t.hist.saved :: ToAgentRecord(t.hist.saved[id]))
  {
    CoreAlways(c, states, labels, i);
    CoreAlways(c, states, labels, i + 1);
    var s, l, t := states[i], labels[i], states[i + 1];
    assert StepAt(c, states, labels, i);
    assert l.RestoreStep? && s.hold == RestoreNext([]) && t.hold == Free;
    RestoringStep(c, s, l);
    RestoredCompletely(s);
    EngineOfRestored(t);
  }

  /** The load loop's skip of ids already present is never taken. */
  lemma RestoreNeverSkips(c: Config, states: seq<Sys>, labels: seq<Label>, i: nat)
    requires Behavior(c, states, labels) && i < |labels|
    requires labels[i].RestoreStep? && states[i].hold.RestoreNext? && states[i].hold.rest != []
    ensures states[i].hold.rest[0].id !in states[i].mem.agents
  {
    CoreAlways(c, states, labels, i);
    NothingIsSkipped(states[i], states[i].hold.rest);
  }

  // ----- Capacity and names -----

  ghost predicate CapacityOk(c: Config, s: Sys) {
    c.maxAgents > 0 ==> |s.mem.agents| <= c.maxAgents && |s.hist.saved| <= c.maxAgents
  }

  lemma SubsetSize<T>(a: set<T>, b: set<T>)
    requires a <= b
    ensures |a| <= |b|
  {
    assert b == a + (b - a);
  }

  /** Sizes follow key sets. */
  lemma CapacityFromKeys(c: Config, s: Sys, t: Sys)
    requires CapacityOk(c, s)
    requires t.mem.agents.Keys <= s.mem.agents.Keys || t.mem.agents.Keys <= s.hist.saved.Keys
    requires t.hist.saved == s.hist.saved || t.hist.saved.Keys == s.mem.agents.Keys
    ensures CapacityOk(c, t)
  {
    assert |s.mem.agents| == |s.mem.agents.Keys| && |t.mem.agents| == |t.mem.agents.Keys|;
    assert |s.hist.saved| == |s.hist.saved.Keys| && |t.hist.saved| == |t.hist.saved.Keys|;
    if t.mem.agents.Keys <= s.mem.agents.Keys {
      SubsetSize(t.mem.agents.Keys, s.mem.agents.Keys);
    } else {
      SubsetSize(t.mem.agents.Keys, s.hist.saved.Keys);
    }
  }

  lemma CapacityAcrossRegister(c: Config, s: Sys, t: Sys, record: AgentRecord, execPath: string)
    requires CapacityOk(c, s) && RegisterFrame(s, t, record, execPath)
    requires !(c.maxAgents > 0 && |s.mem.agents| >= c.maxAgents)
    ensures CapacityOk(c, t)
  {
    assert t.mem.agents.Keys == s.mem.agents.Keys + {record.id};
    assert |s.mem.agents| == |s.mem.agents.Keys| && |t.mem.agents| == |t.mem.agents.Keys|;
  }

  lemma CapacityAcrossRestore(c: Config, s: Sys, t: Sys)
    requires WellFormed(s.mem) && DiskOk(s) && CapacityOk(c, s) && RestoreFrame(s, t)
    ensures CapacityOk(c, t)
  {
    if s.hold.rest != [] {
      NothingIsSkipped(s, s.hold.rest);
      assert t.mem.agents.Keys <= s.hist.saved.Keys;
    }
    CapacityFromKeys(c, s, t);
  }

  lemma CapacityKept(c: Config, s: Sys, l: Label)
    requires Core(c, s) && CapacityOk(c, s) && Enabled(c, s, l)
    ensures CapacityOk(c, Next(c, s, l))
  {
    var t := Next(c, s, l);
    if l.Register? {
      RegisterStep(c, s, l);
      if RegisterAccepted(c, s.mem, l) {
        CapacityAcrossRegister(c, s, t, NewRecord(c.root, l.id, l.profile, l.now), l.execPath);
      }
    } else if l.RestoreStep? {
      RestoringStep(c, s, l);
      CapacityAcrossRestore(c, s, t);
    } else {
      StepTouches(c, s, l, t);
      CapacityAcrossOthers(c, s, t, l);
    }
  }

  lemma CapacityAcrossOthers(c: Config, s: Sys, t: Sys, l: Label)
    requires WellFormed(s.mem) && CapacityOk(c, s) && Touched(s, t, l) && !l.Register? && !l.RestoreStep?
    ensures CapacityOk(c, t)
  {
    CapacityFromKeys(c, s, t);
  }

  lemma CapacityInitially(c: Config)
    ensures CapacityOk(c, Init)
  {
  }

  lemma CapacityInRun(c: Config, states: seq<Sys>, labels: seq<Label>, i: nat)
    requires Behavior(c, states, labels) && i < |labels| && CapacityOk(c, states[i])
    ensures CapacityOk(c, states[i + 1])
  {
    CoreAlways(c, states, labels, i);
    assert StepAt(c, states, labels, i);
    CapacityKept(c, states[i], labels[i]);
  }

  lemma {:induction false} CapacityAlways(c: Config, states: seq<Sys>, labels: seq<Label>, i: nat)
    requires Behavior(c, states, labels) && i < |states|
    ensures CapacityOk(c, states[i])
    decreases i
  {
    if i == 0 {
      CapacityInitially(c);
    } else {
      CapacityAlways(c, states, labels, i - 1);
      CapacityInRun(c, states, labels, i - 1);
    }
  }

  lemma {:induction false} ListingSize(entries: seq<Entry>, reg: map<string, Entry>)
    requires Lists(entries, reg)
    ensures |entries| == |reg|
    decreases |entries|
  {
    assert |reg| == |reg.Keys|;
    if entries == [] {
      assert reg.Keys == {};
    } else {
      ListWithoutFirst(entries, reg);
      ListingSize(entries[1..], reg - {entries[0].id});
      assert reg.Keys == (reg - {entries[0].id}).Keys + {entries[0].id};
    }
  }

  /** Neither memory nor the file ever holds more than MaxAgents agents, and every agent is canonically named. */
  lemma CapacityAndNames(c: Config, states: seq<Sys>, labels: seq<Label>, i: nat)
    requires Behavior(c, states, labels) && i < |states|
    ensures var s := states[i]; var entries := LoadRegistry(s.mem.disk, true);
      && WellFormed(s.mem) && entries.Ok?
      && (c.maxAgents > 0 ==> |s.mem.agents| <= c.maxAgents && |entries.value| <= c.maxAgents)
      && (forall id :: id in s.mem.agents ==>
            Agents(s.mem)[id].record.id == id && Managed(c.root, Agents(s.mem)[id].record))
      && (forall j :: 0 <= j < |entries.value| ==> EntryOk(c, entries.value[j]))
  {
    CoreAlways(c, states, labels, i);
    CapacityAlways(c, states, labels, i);
    var s := states[i];
    ListingSize(LoadRegistry(s.mem.disk, true).value, s.hist.saved);
    forall id | id in s.mem.agents
      ensures Agents(s.mem)[id].record.id == id && Managed(c.root, Agents(s.mem)[id].record)
    {
      assert Managed(c.root, RecordAt(s.mem, s.mem.agents[id]));
    }
  }

  // ----- Policies -----

  ghost predicate QueriesOk(s: Sys) {
    s.phase != Down ==> s.mem.eng.queries == s.hist.loaded && s.hist.loaded.Keys == PROFILE_SET
  }

  /**
   * Once the engine exists it always holds all three profiles of the last successful load: a failed reload changes
   * nothing.
   */
  lemma {:induction false} QueriesAreLastLoad(c: Config, states: seq<Sys>, labels: seq<Label>, i: nat)
    requires Behavior(c, states, labels) && i < |states|
    ensures QueriesOk(states[i])
    decreases i
  {
    if i > 0 {
      QueriesAreLastLoad(c, states, labels, i - 1);
      RunTouches(c, states, labels, i - 1);
    }
  }
}
