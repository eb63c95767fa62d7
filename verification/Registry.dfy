/** The on-disk registry: durable entries, the file and its temporary copy (daemon/internal/agent/registry.go). */
module Registry {
  import opened Wrappers
  import opened Records

  /** What survives a restart of one agent. */
  datatype Entry = Entry(
    id: string,
    profile: string,
    workspacePath: string,
    execPath: string,
    allowedBinaries: seq<string>,
    allowedNetworks: seq<string>,
    registeredAt: Time)

  function ToEntry(ra: Runtime): Entry {
    Entry(ra.record.id, ra.record.profile, ra.record.workspacePath, ra.execPath,
          ra.record.allowedBinaries, ra.record.allowedNetworks, ra.record.registeredAt)
  }

  function ToAgentRecord(e: Entry): AgentRecord {
    AgentRecord(e.id, e.profile, e.workspacePath, e.allowedBinaries, e.allowedNetworks, e.registeredAt, None)
  }

  /** The runtime agent that loading makes of an entry. */
  function Restored(e: Entry): Runtime {
    Runtime(ToAgentRecord(e), e.execPath, Registered, None, None, None, "")
  }

  // ----- The files -----

  /** A file that was being written, or one complete encoded registry. */
  datatype Content = Partial | Complete(entries: seq<Entry>)

  datatype Disk = Disk(file: Option<Content>, tmp: Option<Content>)

  datatype LoadError = Unreadable | Unparsable

  /** loadRegistry: no file is an empty registry, a partial one does not parse. */
  function LoadRegistry(disk: Disk, readable: bool): Result<seq<Entry>, LoadError> {
    match disk.file
    case None => Ok([])
    case Some(content) =>
      if !readable then Err(Unreadable)
      else match content
           case Partial => Err(Unparsable)
           case Complete(entries) => Ok(entries)
  }

  // ----- Saving and loading -----

  /** An iteration order over a key set: every key once. */
  ghost predicate IsOrder(order: seq<string>, keys: set<string>) {
    && (forall i, j :: 0 <= i < j < |order| ==> order[i] != order[j])
    && (forall id :: id in keys <==> id in order)
  }

  /** The agents one by one, in some iteration order. */
  ghost predicate Enumerates(values: seq<Runtime>, agents: map<string, Runtime>) {
    exists order ::
      && IsOrder(order, agents.Keys) && |values| == |order|
      && (forall i :: 0 <= i < |values| ==> order[i] in agents && values[i] == agents[order[i]])
  }

  /** Enumerating, with the keys in `left` still to come. */
  ghost predicate EnumeratesBut(values: seq<Runtime>, order: seq<string>, agents: map<string, Runtime>,
                                left: set<string>) {
    && left <= agents.Keys && |values| == |order|
    && (forall i, j :: 0 <= i < j < |order| ==> order[i] != order[j])
    && (forall id :: id in agents.Keys - left <==> id in order)
    && (forall i :: 0 <= i < |values| ==> order[i] in agents && values[i] == agents[order[i]])
  }

  lemma EnumerateOne(values: seq<Runtime>, order: seq<string>, agents: map<string, Runtime>, left: set<string>,
                     id: string)
    requires EnumeratesBut(values, order, agents, left) && id in left
    ensures EnumeratesBut(values + [agents[id]], order + [id], agents, left - {id})
  {
    assert id !in order;
  }

  lemma EnumeratedAll(values: seq<Runtime>, order: seq<string>, agents: map<string, Runtime>)
    requires EnumeratesBut(values, order, agents, {})
    ensures Enumerates(values, agents)
  {
    assert IsOrder(order, agents.Keys);
  }

  /** The entries that saving emits when its map iteration takes the given order. */
  function EntriesIn(order: seq<string>, agents: map<string, Runtime>): seq<Entry>
    requires forall id :: id in order ==> id in agents
  {
    seq(|order|, i requires 0 <= i < |order| => ToEntry(agents[order[i]]))
  }

  function Durable(agents: map<string, Runtime>): map<string, Entry> {
    map id | id in agents :: ToEntry(agents[id])
  }

  /** Every key is the id of its agent. */
  ghost predicate KeyedById(agents: map<string, Runtime>) {
    forall id :: id in agents ==> agents[id].record.id == id
  }

  /** `entries` lists the registry `reg`, each entry once. */
  ghost predicate Lists(entries: seq<Entry>, reg: map<string, Entry>) {
    && (forall i :: 0 <= i < |entries| ==> entries[i].id in reg && reg[entries[i].id] == entries[i])
    && (forall i, j :: 0 <= i < j < |entries| ==> entries[i].id != entries[j].id)
    && (forall id :: id in reg ==> exists i :: 0 <= i < |entries| && entries[i].id == id)
  }

  lemma SavedEntriesListTheAgents(order: seq<string>, agents: map<string, Runtime>)
    requires KeyedById(agents) && IsOrder(order, agents.Keys)
    ensures Lists(EntriesIn(order, agents), Durable(agents))
  {
    var entries := EntriesIn(order, agents);
    assert forall i :: 0 <= i < |order| ==> order[i] in order;
    assert forall i :: 0 <= i < |entries| ==> entries[i].id == order[i];
    forall id | id in Durable(agents)
      ensures exists i :: 0 <= i < |entries| && entries[i].id == id
    {
      var i :| 0 <= i < |order| && order[i] == id;
      assert entries[i].id == id;
    }
  }

  /** The load loop: entries whose id is already present are skipped. */
  function LoadAll(agents: map<string, Runtime>, entries: seq<Entry>): map<string, Runtime>
    decreases |entries|
  {
    if entries == [] then agents
    else if entries[0].id in agents then LoadAll(agents, entries[1..])
    else LoadAll(agents[entries[0].id := Restored(entries[0])], entries[1..])
  }

  /** The first entry of an id that is not yet there. */
  predicate IsNew(agents: map<string, Runtime>, entries: seq<Entry>, i: nat)
    requires i < |entries|
  {
    entries[i].id !in agents && forall j :: 0 <= j < i ==> entries[j].id != entries[i].id
  }

  lemma IsNewLater(agents: map<string, Runtime>, entries: seq<Entry>, more: map<string, Runtime>, i: nat)
    requires 0 < i < |entries| && more.Keys == agents.Keys + {entries[0].id}
    ensures IsNew(agents, entries, i) <==> IsNew(more, entries[1..], i - 1)
  {
    assert forall j :: 0 < j <= i ==> entries[1..][j - 1] == entries[j];
  }

  /**
   * Loading keeps the agents that are there and adds, for each other id, the agent of its first entry, registered and
   * idle, with the entry's own fields.
   */
  lemma {:induction false} LoadAddsEach(agents: map<string, Runtime>, entries: seq<Entry>)
    ensures LoadAll(agents, entries).Keys == agents.Keys + set i | 0 <= i < |entries| :: entries[i].id
    ensures forall id :: id in agents ==> LoadAll(agents, entries)[id] == agents[id]
    ensures forall i :: 0 <= i < |entries| && IsNew(agents, entries, i) ==>
      var e := entries[i];
      LoadAll(agents, entries)[e.id] == Runtime(
        AgentRecord(e.id, e.profile, e.workspacePath, e.allowedBinaries, e.allowedNetworks, e.registeredAt, None),
        e.execPath, Registered, None, None, None, "")
    decreases |entries|
  {
    if entries != [] {
      var more := if entries[0].id in agents then agents else agents[entries[0].id := Restored(entries[0])];
      var rest := entries[1..];
      assert forall i :: 0 <= i < |rest| ==> rest[i] == entries[i + 1];
      LoadAddsEach(more, rest);
      assert (set i | 0 <= i < |entries| :: entries[i].id)
          == {entries[0].id} + set i | 0 <= i < |rest| :: rest[i].id;
      forall i | 0 <= i < |entries| && IsNew(agents, entries, i)
        ensures LoadAll(agents, entries)[entries[i].id] == Restored(entries[i])
      {
        if i > 0 {
          IsNewLater(agents, entries, more, i);
          assert entries[i] == rest[i - 1];
        }
      }
    }
  }

  function RestoredAll(reg: map<string, Entry>): map<string, Runtime> {
    map id | id in reg :: Restored(reg[id])
  }

  lemma ListedIsLoaded(entries: seq<Entry>, reg: map<string, Entry>, id: string)
    requires Lists(entries, reg) && id in reg
    ensures id in LoadAll(map[], entries) && LoadAll(map[], entries)[id] == Restored(reg[id])
  {
    LoadAddsEach(map[], entries);
    var i :| 0 <= i < |entries| && entries[i].id == id;
    assert IsNew(map[], entries, i);
  }

  lemma LoadedIsListed(entries: seq<Entry>, reg: map<string, Entry>)
    requires Lists(entries, reg)
    ensures LoadAll(map[], entries).Keys <= reg.Keys
  {
    LoadAddsEach(map[], entries);
  }

  /** Loading a listing rebuilds every agent of the registry, registered and idle; the skip never fires. */
  lemma LoadRebuilds(entries: seq<Entry>, reg: map<string, Entry>)
    requires Lists(entries, reg)
    ensures LoadAll(map[], entries) == RestoredAll(reg)
  {
    LoadedIsListed(entries, reg);
    forall id | id in reg
      ensures id in LoadAll(map[], entries) && LoadAll(map[], entries)[id] == Restored(reg[id])
    {
      ListedIsLoaded(entries, reg, id);
    }
  }

  lemma DurableOfRestored(reg: map<string, Entry>)
    ensures Durable(RestoredAll(reg)) == reg
  {
    assert forall id :: id in reg ==> ToEntry(Restored(reg[id])) == reg[id];
  }

  /** Saving in any order and loading gives back exactly the durable fields, with every agent registered and idle. */
  lemma SaveThenLoad(order: seq<string>, agents: map<string, Runtime>)
    requires KeyedById(agents) && IsOrder(order, agents.Keys)
    ensures LoadAll(map[], EntriesIn(order, agents)) == RestoredAll(Durable(agents))
    ensures Durable(LoadAll(map[], EntriesIn(order, agents))) == Durable(agents)
    ensures var loaded := LoadAll(map[], EntriesIn(order, agents));
      && loaded.Keys == agents.Keys
      && forall id :: id in agents ==>
           loaded[id] == Runtime(agents[id].record.(lastStartedAt := None), agents[id].execPath, Registered, None, None,
                                 None, "")
  {
    SavedEntriesListTheAgents(order, agents);
    LoadRebuilds(EntriesIn(order, agents), Durable(agents));
    DurableOfRestored(Durable(agents));
  }
}
