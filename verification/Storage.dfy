/** The files of the daemon, and saving the registry to them (daemon/internal/agent/registry.go). */
module Storage {
  import opened Wrappers
  import opened Records
  import opened Registry
  import opened Paths
  import opened Objects
  import opened Memory

  /** The registry with its temporary copy, and the tree of agent directories. */
  class Files {
    var disk: Disk
    var tree: Tree

    constructor (disk: Disk, tree: Tree)
      ensures this.disk == disk && this.tree == tree
    {
      this.disk, this.tree := disk, tree;
    }
  }

  /** How far a save gets. */
  datatype SaveOutcome = NotOpened | NotWritten | NotRenamed | Saved

  function SaveActs(entries: seq<Entry>, outcome: SaveOutcome): seq<Act> {
    match outcome
    case NotOpened => []
    case NotWritten => [TruncateTmp]
    case NotRenamed => [TruncateTmp, FillTmp(entries)]
    case Saved => [TruncateTmp, FillTmp(entries), RenameTmp]
  }

  ghost function ValuesOf(agents: map<string, RuntimeAgent>): map<string, Runtime>
    reads agents.Values, set ra | ra in agents.Values :: ra.record
  {
    map id | id in agents :: agents[id].Value()
  }

  /** One entry per agent, in whatever order the map is walked. */
  method CollectEntries(agents: map<string, RuntimeAgent>) returns (entries: seq<Entry>)
    ensures exists order :: IsOrder(order, agents.Keys) && entries == EntriesIn(order, ValuesOf(agents))
  {
    entries := [];
    ghost var order: seq<string> := [];
    var left := agents.Keys;
    while left != {}
      invariant left <= agents.Keys
      invariant forall id :: id in agents.Keys - left <==> id in order
      invariant forall i, j :: 0 <= i < j < |order| ==> order[i] != order[j]
      invariant entries == EntriesIn(order, ValuesOf(agents))
    {
      var id :| id in left;
      assert id !in order;
      var ra := agents[id];
      entries := entries + [Entry(ra.record.id, ra.record.profile, ra.record.workspacePath, ra.execPath,
                                  ra.record.allowedBinaries, ra.record.allowedNetworks, ra.record.registeredAt)];
      order := order + [id];
      left := left - {id};
    }
  }

  /** Writes the temporary file and renames it over the registry, each operation as far as it succeeds. */
  method SaveRegistry(files: Files, agents: map<string, RuntimeAgent>, outcome: SaveOutcome)
    returns (ok: bool, ghost order: seq<string>)
    modifies files`disk
    ensures ok <==> outcome.Saved?
    ensures IsOrder(order, agents.Keys)
    ensures var entries := EntriesIn(order, old(ValuesOf(agents)));
      files.disk == match outcome
        case NotOpened => old(files.disk)
        case NotWritten => old(files.disk).(tmp := Some(Partial))
        case NotRenamed => old(files.disk).(tmp := Some(Complete(entries)))
        case Saved => Disk(Some(Complete(entries)), None)
  {
    ok := false;
    var entries := CollectEntries(agents);
    order :| IsOrder(order, agents.Keys) && entries == EntriesIn(order, ValuesOf(agents));
    if outcome.NotOpened? {
      return;
    }
    files.disk := files.disk.(tmp := Some(Partial));
    if outcome.NotWritten? {
      return;
    }
    files.disk := files.disk.(tmp := Some(Complete(entries)));
    if outcome.NotRenamed? {
      return;
    }
    files.disk := Disk(files.disk.tmp, None);
    ok := true;
  }
}
