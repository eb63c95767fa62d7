/** The policy engine as it runs (daemon/internal/policy/engine.go): pointers to records, swapped query maps. */
module PolicyEngine {
  import opened Wrappers
  import opened Records
  import opened Objects
  import E = EngineState

  // ----- Policy files -----

  /** A file found by the base glob; its text, if it can be read. */
  datatype PolicyFile = PolicyFile(path: string, text: Option<string>)

  /** One policy directory: the base files in glob order, and the readable profile overlays. */
  datatype PolicyDir = PolicyDir(base: seq<PolicyFile>, overlays: map<string, PolicyFile>)

  datatype Module = Module(path: string, text: string)

  /** Parsing and compiling modules for one profile; the OPA library is not part of this model. */
  type Compiler = seq<Module> -> Option<E.Query>

  /** The base modules of one directory up to the first file that cannot be read. */
  function BaseModules(files: seq<PolicyFile>): Option<seq<Module>>
    decreases |files|
  {
    if files == [] then Some([])
    else
      var before, last := BaseModules(files[..|files| - 1]), files[|files| - 1];
      if before.None? || last.text.None? then None
      else Some(before.value + [Module(last.path, last.text.value)])
  }

  /** An overlay that is missing or cannot be read is left out. */
  function OverlayModules(dir: PolicyDir, profile: string): seq<Module> {
    if profile in dir.overlays && dir.overlays[profile].text.Some?
    then [Module(dir.overlays[profile].path, dir.overlays[profile].text.value)] else []
  }

  function ModulesOf(dirs: seq<PolicyDir>, profile: string): Option<seq<Module>>
    decreases |dirs|
  {
    if dirs == [] then Some([])
    else
      var last := dirs[|dirs| - 1];
      var before, base := ModulesOf(dirs[..|dirs| - 1], profile), BaseModules(last.base);
      if before.None? || base.None? then None
      else Some(before.value + base.value + OverlayModules(last, profile))
  }

  /** The list grows directory by directory. */
  lemma ModulesOneMore(dirs: seq<PolicyDir>, profile: string, d: nat, before: seq<Module>)
    requires d < |dirs| && ModulesOf(dirs[..d], profile) == Some(before) && BaseModules(dirs[d].base).Some?
    ensures ModulesOf(dirs[..d + 1], profile)
         == Some(before + BaseModules(dirs[d].base).value + OverlayModules(dirs[d], profile))
  {
    assert dirs[..d + 1][..d] == dirs[..d] && dirs[..d + 1][d] == dirs[d];
  }

  function Prepared(dirs: seq<PolicyDir>, profile: string, compile: Compiler): Option<E.Query> {
    var modules := ModulesOf(dirs, profile);
    if modules.None? || modules.value == [] then None else compile(modules.value)
  }

  /** Every file can be read. */
  predicate AllReadable(dirs: seq<PolicyDir>) {
    forall i, j :: 0 <= i < |dirs| && 0 <= j < |dirs[i].base| ==> dirs[i].base[j].text.Some?
  }

  lemma {:induction false} BaseReadable(files: seq<PolicyFile>)
    ensures BaseModules(files).Some? <==> forall j :: 0 <= j < |files| ==> files[j].text.Some?
    decreases |files|
  {
    if files != [] {
      BaseReadable(files[..|files| - 1]);
    }
  }

  lemma {:induction false} DirsReadable(dirs: seq<PolicyDir>, profile: string)
    ensures ModulesOf(dirs, profile).Some? <==> AllReadable(dirs)
    decreases |dirs|
  {
    if dirs != [] {
      var init, last := dirs[..|dirs| - 1], dirs[|dirs| - 1];
      DirsReadable(init, profile);
      BaseReadable(last.base);
      assert dirs == init + [last];
    }
  }

  lemma {:induction false} BaseByPosition(files: seq<PolicyFile>)
    requires forall j :: 0 <= j < |files| ==> files[j].text.Some?
    ensures BaseModules(files).Some? && |BaseModules(files).value| == |files|
    ensures forall j :: 0 <= j < |files| ==> BaseModules(files).value[j] == Module(files[j].path, files[j].text.value)
    decreases |files|
  {
    if files != [] {
      BaseByPosition(files[..|files| - 1]);
    }
  }

  lemma Regroup(a: seq<Module>, b: seq<Module>, c: seq<Module>, d: seq<Module>)
    ensures a + b + c + d == a + (b + c + d)
  {
  }

  /**
   * What one readable directory contributes: its base files in order, each with its path and text, then the overlay
   * of the profile if there is one that can be read.
   */
  lemma OneDirectory(dir: PolicyDir, profile: string)
    requires forall j :: 0 <= j < |dir.base| ==> dir.base[j].text.Some?
    ensures ModulesOf([dir], profile).Some?
    ensures var modules, n := ModulesOf([dir], profile).value, |dir.base|;
      && (forall j :: 0 <= j < n ==> j < |modules| && modules[j] == Module(dir.base[j].path, dir.base[j].text.value))
      && (if profile in dir.overlays && dir.overlays[profile].text.Some?
          then |modules| == n + 1 && modules[n] == Module(dir.overlays[profile].path, dir.overlays[profile].text.value)
          else |modules| == n)
  {
    assert [dir][..0] == [] && [dir][0] == dir;
    BaseByPosition(dir.base);
    assert ModulesOf([], profile) == Some([]);
    assert [] + BaseModules(dir.base).value == BaseModules(dir.base).value;
  }

  /** And directories contribute one after the other, all of them or, if one cannot be read, none. */
  lemma {:induction false} DirectoryByDirectory(a: seq<PolicyDir>, b: seq<PolicyDir>, profile: string)
    ensures ModulesOf([], profile) == Some([])
    ensures var before, after := ModulesOf(a, profile), ModulesOf(b, profile);
      ModulesOf(a + b, profile)
        == if before.Some? && after.Some? then Some(before.value + after.value) else None
    decreases |b|
  {
    if b == [] {
      assert a + b == a;
      if ModulesOf(a, profile).Some? {
        assert ModulesOf(a, profile).value + [] == ModulesOf(a, profile).value;
      }
    } else {
      var n := |b| - 1;
      assert (a + b)[..|a + b| - 1] == a + b[..n] && (a + b)[|a + b| - 1] == b[n];
      DirectoryByDirectory(a, b[..n], profile);
      var init, last := ModulesOf(b[..n], profile), BaseModules(b[n].base);
      if ModulesOf(a, profile).Some? && init.Some? && last.Some? {
        var before, overlay := ModulesOf(a, profile).value, OverlayModules(b[n], profile);
        Regroup(before, init.value, last.value, overlay);
      }
    }
  }

  /** A file that the directory `dir` gives to `profile`: one of its base files, or the readable overlay. */
  ghost predicate Given(dir: PolicyDir, profile: string, m: Module) {
    || (exists j :: 0 <= j < |dir.base| && dir.base[j] == PolicyFile(m.path, Some(m.text)))
    || (profile in dir.overlays && dir.overlays[profile] == PolicyFile(m.path, Some(m.text)))
  }

  lemma GivenByOne(dir: PolicyDir, profile: string, m: Module)
    requires ModulesOf([dir], profile).Some?
    ensures m in ModulesOf([dir], profile).value <==> Given(dir, profile, m)
  {
    DirsReadable([dir], profile);
    assert [dir][0] == dir;
    OneDirectory(dir, profile);
    var modules := ModulesOf([dir], profile).value;
    if m in modules {
      var i :| 0 <= i < |modules| && modules[i] == m;
      if i < |dir.base| {
        assert dir.base[i] == PolicyFile(m.path, Some(m.text));
      }
    }
    if j :| 0 <= j < |dir.base| && dir.base[j] == PolicyFile(m.path, Some(m.text)) {
      assert modules[j] == m;
    }
  }

  /** What is compiled for a profile is what the named directories that exist have for it, and nothing else. */
  lemma {:induction false} CompiledFiles(fs: map<string, PolicyDir>, names: seq<string>, profile: string, m: Module)
    requires ModulesOf(DirsIn(fs, names), profile).Some?
    ensures m in ModulesOf(DirsIn(fs, names), profile).value
       <==> exists name :: name in names && name in fs && Given(fs[name], profile, m)
    decreases |names|
  {
    var dirs := DirsIn(fs, names);
    if names != [] {
      var n := |names| - 1;
      var init, last := DirsIn(fs, names[..n]), dirs[n];
      assert dirs == init + [last];
      DirectoryByDirectory(init, [last], profile);
      CompiledFiles(fs, names[..n], profile, m);
      GivenByOne(last, profile, m);
      assert names == names[..n] + [names[n]];
    }
  }

  /** The directories of the engine as the file system has them; one that is gone holds no files. */
  function DirsIn(fs: map<string, PolicyDir>, names: seq<string>): (r: seq<PolicyDir>)
    ensures |r| == |names|
  {
    seq(|names|, i requires 0 <= i < |names| => if names[i] in fs then fs[names[i]] else PolicyDir([], map[]))
  }

  /** Whether a load of all the profiles succeeds. */
  predicate Loadable(dirs: seq<PolicyDir>, profiles: seq<string>, compile: Compiler) {
    forall profile :: profile in profiles ==> Prepared(dirs, profile, compile).Some?
  }

  function Loaded(dirs: seq<PolicyDir>, profiles: seq<string>, compile: Compiler): map<string, E.Query>
    requires Loadable(dirs, profiles, compile)
  {
    map profile | profile in profiles :: Prepared(dirs, profile, compile).value
  }

  /**
   * A load succeeds exactly when every base file is readable and each profile has modules and they compile; each
   * profile then has what its own modules compile to.
   */
  lemma LoadSucceedsWhen(dirs: seq<PolicyDir>, profiles: seq<string>, compile: Compiler)
    requires profiles != []
    ensures Loadable(dirs, profiles, compile) <==>
      && AllReadable(dirs)
      && forall profile :: profile in profiles ==>
           && ModulesOf(dirs, profile).Some? && ModulesOf(dirs, profile).value != []
           && compile(ModulesOf(dirs, profile).value).Some?
    ensures Loadable(dirs, profiles, compile) ==>
      && (forall profile :: profile in Loaded(dirs, profiles, compile) <==> profile in profiles)
      && (forall profile :: profile in profiles ==>
            compile(ModulesOf(dirs, profile).value) == Some(Loaded(dirs, profiles, compile)[profile]))
  {
    DirsReadable(dirs, profiles[0]);
    assert profiles[0] in profiles;
  }

  /** Operator modules come after the shipped ones, all of both, and never take their place. */
  lemma OverridesOnlyAdd(builtin: PolicyDir, override: PolicyDir, profile: string)
    ensures ModulesOf([builtin, override], profile).Some?
       <==> ModulesOf([builtin], profile).Some? && ModulesOf([override], profile).Some?
    ensures ModulesOf([builtin, override], profile).Some? ==>
      ModulesOf([builtin, override], profile).value
        == ModulesOf([builtin], profile).value + ModulesOf([override], profile).value
  {
    assert [builtin, override] == [builtin] + [override];
    DirectoryByDirectory([builtin], [override], profile);
  }

  /** A load of the shipped profiles gives exactly these three. */
  lemma ThreeProfiles(dirs: seq<PolicyDir>, compile: Compiler)
    requires Loadable(dirs, PROFILES, compile)
    ensures Loaded(dirs, PROFILES, compile).Keys == {"minimal", "developer", "infrastructure"}
  {
    assert PROFILES[0] == "minimal" && PROFILES[1] == "developer" && PROFILES[2] == "infrastructure";
    assert forall profile :: profile in PROFILES <==> profile in {"minimal", "developer", "infrastructure"};
  }

  // ----- Lookups -----

  /** What Evaluate holds when it has released the lock. */
  datatype Found =
    | Answer(decision: PolicyDecision)
    | Pending(cell: RecordCell, query: E.Query, profile: string)

  class Engine {
    var queries: map<string, E.Query>
    var agents: map<string, RecordCell>
    const dirs: seq<string>

    /** The records the engine's pointers lead to. */
    ghost function Records(): map<string, AgentRecord>
      reads this, agents.Values
    {
      map id | id in agents :: agents[id].Value()
    }

    // ----- Loading -----

    constructor Empty(dirs: seq<string>)
      ensures this.dirs == dirs && queries == map[] && agents == map[]
    {
      this.dirs, queries, agents := dirs, map[], map[];
    }

    /** The engine exists only if every profile loads; the override directory counts only if it is given and exists. */
    static method NewEngine(builtinDir: string, overrideDir: string, fs: map<string, PolicyDir>, compile: Compiler)
      returns (engine: Option<Engine>)
      ensures var names := if overrideDir != "" && overrideDir in fs then [builtinDir, overrideDir] else [builtinDir];
        && (engine.Some? <==> Loadable(DirsIn(fs, names), PROFILES, compile))
        && (engine.Some? ==>
              && fresh(engine.value) && engine.value.dirs == names && engine.value.agents == map[]
              && engine.value.queries == Loaded(DirsIn(fs, names), PROFILES, compile)
              && engine.value.queries.Keys == {"minimal", "developer", "infrastructure"})
    {
      var names := [builtinDir];
      if overrideDir != "" && overrideDir in fs {
        names := names + [overrideDir];
      }
      assert names == if overrideDir != "" && overrideDir in fs then [builtinDir, overrideDir] else [builtinDir];
      var e := new Engine.Empty(names);
      var ok := e.LoadPolicies(PROFILES, fs, compile);
      if ok {
        ThreeProfiles(DirsIn(fs, names), compile);
      }
      engine := if ok then Some(e) else None;
    }

    /** Fills the query map of a new engine profile by profile; a failure leaves it half filled. */
    method LoadPolicies(profiles: seq<string>, fs: map<string, PolicyDir>, compile: Compiler) returns (ok: bool)
      requires queries == map[]
      modifies this`queries
      ensures ok <==> Loadable(DirsIn(fs, dirs), profiles, compile)
      ensures ok ==> queries == Loaded(DirsIn(fs, dirs), profiles, compile)
    {
      for n := 0 to |profiles|
        invariant Loadable(DirsIn(fs, dirs), profiles[..n], compile)
        invariant queries == Loaded(DirsIn(fs, dirs), profiles[..n], compile)
      {
        assert profiles[..n + 1] == profiles[..n] + [profiles[n]];
        var query := PrepareQuery(fs, profiles[n], compile);
        if query.None? {
          return false;
        }
        queries := queries[profiles[n] := query.value];
      }
      assert profiles[..|profiles|] == profiles;
      ok := true;
    }

    /** Collects the modules of every directory and compiles them. */
    method PrepareQuery(fs: map<string, PolicyDir>, profile: string, compile: Compiler) returns (query: Option<E.Query>)
      ensures query == Prepared(DirsIn(fs, dirs), profile, compile)
    {
      var modules: seq<Module> := [];
      ghost var all := DirsIn(fs, dirs);
      for d := 0 to |dirs|
        invariant ModulesOf(all[..d], profile) == Some(modules)
      {
        var dir := if dirs[d] in fs then fs[dirs[d]] else PolicyDir([], map[]);
        ghost var before := modules;
        for f := 0 to |dir.base|
          invariant BaseModules(dir.base[..f]).Some? && modules == before + BaseModules(dir.base[..f]).value
        {
          assert dir.base[..f + 1][..f] == dir.base[..f];
          if dir.base[f].text.None? {
            UnreadableFails(all, profile, d, f);
            return None;
          }
          modules := modules + [Module(dir.base[f].path, dir.base[f].text.value)];
        }
        assert dir.base[..|dir.base|] == dir.base;
        if profile in dir.overlays && dir.overlays[profile].text.Some? {
          modules := modules + [Module(dir.overlays[profile].path, dir.overlays[profile].text.value)];
        }
        assert modules == before + BaseModules(dir.base).value + OverlayModules(dir, profile);
        ModulesOneMore(all, profile, d, before);
      }
      assert all[..|dirs|] == all;
      if |modules| == 0 {
        return None;
      }
      query := compile(modules);
    }

    /** Hot reload: the new map is built aside and replaces the old one only when it is complete. */
    method Reload(profiles: seq<string>, fs: map<string, PolicyDir>, compile: Compiler) returns (ok: bool)
      modifies this`queries
      ensures ok <==> Loadable(DirsIn(fs, dirs), profiles, compile)
      ensures queries == if ok then Loaded(DirsIn(fs, dirs), profiles, compile) else old(queries)
    {
      var newQueries: map<string, E.Query> := map[];
      for n := 0 to |profiles|
        invariant queries == old(queries)
        invariant Loadable(DirsIn(fs, dirs), profiles[..n], compile)
        invariant newQueries == Loaded(DirsIn(fs, dirs), profiles[..n], compile)
      {
        assert profiles[..n + 1] == profiles[..n] + [profiles[n]];
        var query := PrepareQuery(fs, profiles[n], compile);
        if query.None? {
          return false;
        }
        newQueries := newQueries[profiles[n] := query.value];
      }
      assert profiles[..|profiles|] == profiles;
      queries := newQueries;
      ok := true;
    }

    // ----- Agents -----

    /** Keeps the pointer it is given; the record is not copied. */
    method RegisterAgent(cell: RecordCell)
      modifies this`agents
      ensures agents == old(agents)[cell.id := cell]
    {
      agents := agents[cell.id := cell];
    }

    method UnregisterAgent(id: string)
      modifies this`agents
      ensures agents == old(agents) - {id}
    {
      agents := agents - {id};
    }

    // ----- Evaluation -----

    /** The locked part of Evaluate: the pointer and the query, not yet the record's fields. */
    method Find(action: AgentAction) returns (found: Found)
      ensures action.agentId !in agents ==> found == Answer(E.UNKNOWN_AGENT)
      ensures action.agentId in agents ==>
        var cell := agents[action.agentId];
        found == if cell.profile in queries then Pending(cell, queries[cell.profile], cell.profile)
                 else Answer(E.UnknownProfile(cell.profile))
    {
      if action.agentId !in agents {
        return Answer(E.UNKNOWN_AGENT);
      }
      var cell := agents[action.agentId];
      var profile := cell.profile;
      if profile !in queries {
        return Answer(E.UnknownProfile(profile));
      }
      found := Pending(cell, queries[profile], profile);
    }

    /** The rest of Evaluate, after unlocking: reads the record through the pointer and asks the query. */
    static method Decide(action: AgentAction, cell: RecordCell, query: E.Query, profile: string)
      returns (answer: Result<PolicyDecision, E.EvalError>)
      ensures answer == E.Interpret(query(OPAInput(action, cell.Value())), profile)
      ensures E.Reports(answer, query(OPAInput(action, cell.Value())), profile)
    {
      var outcome := query(OPAInput(action, cell.Value()));
      match outcome
      case EvalFailed => answer := Err(E.EvaluationFailed);
      case NoResult => answer := Ok(PolicyDecision(false, ["no policy result"], false, profile));
      case NotAnObject => answer := Err(E.UnexpectedResultType);
      case Object(fields) =>
        var allow := "allow" in fields && fields["allow"].Bool? && fields["allow"].b;
        var auditRequired := "audit_required" in fields && fields["audit_required"].Bool? && fields["audit_required"].b;
        var reasons := [];
        if "reasons" in fields && fields["reasons"].List? {
          reasons := TextsOf(fields["reasons"].items);
        }
        answer := Ok(PolicyDecision(allow, reasons, auditRequired, profile));
    }

    /** A whole evaluation with nothing in between is the decision on the current records and queries. */
    method Evaluate(action: AgentAction) returns (answer: Result<PolicyDecision, E.EvalError>)
      ensures answer == E.DecideAt(queries, Records(), action)
      ensures action.agentId !in agents
        ==> answer == Ok(PolicyDecision(false, ["agent not registered"], false, "none"))
      ensures action.agentId in agents ==>
        var agent := agents[action.agentId].Value();
        if agent.profile in queries
        then E.Reports(answer, queries[agent.profile](OPAInput(action, agent)), agent.profile)
        else answer == Ok(PolicyDecision(false, ["unknown policy profile: " + agent.profile], false, agent.profile))
    {
      var found := Find(action);
      match found
      case Answer(decision) => answer := Ok(decision);
      case Pending(cell, query, profile) => answer := Decide(action, cell, query, profile);
    }
  }

  /** A base file that cannot be read makes the load fail, whatever comes after it. */
  lemma UnreadableFails(dirs: seq<PolicyDir>, profile: string, d: nat, f: nat)
    requires d < |dirs| && f < |dirs[d].base| && dirs[d].base[f].text.None?
    ensures ModulesOf(dirs, profile).None?
  {
    DirsReadable(dirs, profile);
  }

  method TextsOf(items: seq<E.Value>) returns (texts: seq<string>)
    ensures texts == E.Texts(items)
  {
    texts := [];
    for i := 0 to |items|
      invariant texts + E.Texts(items[i..]) == E.Texts(items)
    {
      assert items[i..][1..] == items[i + 1..];
      if items[i].Text? {
        texts := texts + [items[i].s];
      }
    }
  }
}
