/** Lexical path cleaning, workspace provisioning and purging over a tree of directory entries. */
module Paths {
  import opened Wrappers
  import opened Text
  import opened Identity

  /** A cleaned path: whether it starts at `/`, and its segments. */
  datatype Clean = Clean(rooted: bool, segments: seq<string>)

  /** One segment of the lexical rules of Go's filepath.Clean. */
  function Push(stack: seq<string>, segment: string, rooted: bool): seq<string> {
    if segment == "" || segment == "." then stack
    else if segment == ".." then
      if |stack| > 0 && stack[|stack| - 1] != ".." then stack[..|stack| - 1]
      else if rooted then stack
      else stack + [".."]
    else stack + [segment]
  }

  function PushAll(stack: seq<string>, segments: seq<string>, rooted: bool): seq<string>
    decreases |segments|
  {
    if segments == [] then stack else PushAll(Push(stack, segments[0], rooted), segments[1..], rooted)
  }

  function CleanPath(path: string): Clean {
    var rooted := "/" <= path;
    Clean(rooted, PushAll([], Split(path, '/'), rooted))
  }

  /** filepath.Dir: everything up to the last separator, cleaned. */
  function Dir(path: string): Clean {
    CleanPath(UpToLastSlash(path))
  }

  function UpToLastSlash(path: string): string
    decreases |path|
  {
    if path == "" || path[|path| - 1] == '/' then path else UpToLastSlash(path[..|path| - 1])
  }

  /** filepath.Join of a directory and a name; an empty directory is left out. */
  function JoinPath(dir: string, name: string): Clean {
    if dir == "" then CleanPath(name) else CleanPath(dir + "/" + name)
  }

  /** An ordinary name: cleaning keeps it as one segment. */
  predicate PlainName(name: string) {
    name != "" && name != "." && name != ".." && '/' !in name
  }

  lemma {:induction false} PushAllSplits(stack: seq<string>, a: seq<string>, b: seq<string>, rooted: bool)
    ensures PushAll(stack, a + b, rooted) == PushAll(PushAll(stack, a, rooted), b, rooted)
    decreases |a|
  {
    if a == [] {
      assert a + b == b;
    } else {
      assert (a + b)[0] == a[0] && (a + b)[1..] == a[1..] + b;
      PushAllSplits(Push(stack, a[0], rooted), a[1..], b, rooted);
    }
  }

  /** Without `..`, pushing segments never takes anything off the stack. */
  lemma {:induction false} PushAllGrows(stack: seq<string>, segments: seq<string>, rooted: bool)
    requires ".." !in segments
    ensures stack <= PushAll(stack, segments, rooted)
    decreases |segments|
  {
    if segments != [] {
      PushAllGrows(Push(stack, segments[0], rooted), segments[1..], rooted);
    }
  }

  /** A stack that cleaning can leave: no empty or `.` segments, and none `..` if the path is rooted. */
  predicate Cleaned(stack: seq<string>, rooted: bool) {
    "" !in stack && "." !in stack && (rooted ==> ".." !in stack)
  }

  /** Going from `dir` along a stack and then one segment further, or along the stack with that segment pushed. */
  lemma PushLeadsOn(dir: seq<string>, stack: seq<string>, segment: string, rooted: bool)
    requires Cleaned(stack, rooted) && (rooted ==> dir == [])
    ensures PushAll(dir, Push(stack, segment, rooted), true) == Push(PushAll(dir, stack, true), segment, true)
    ensures Cleaned(Push(stack, segment, rooted), rooted)
  {
    var n := |stack|;
    PushAllSplits(dir, stack, [segment], true);
    OnePushed(PushAll(dir, stack, true), segment);
    if segment == ".." && n > 0 {
      assert stack == stack[..n - 1] + [stack[n - 1]];
      PushAllSplits(dir, stack[..n - 1], [stack[n - 1]], true);
      OnePushed(PushAll(dir, stack[..n - 1], true), stack[n - 1]);
    }
  }

  lemma OnePushed(stack: seq<string>, segment: string)
    ensures PushAll(stack, [segment], true) == Push(stack, segment, true)
  {
    assert [segment][1..] == [];
    assert PushAll(stack, [segment], true) == PushAll(Push(stack, segment, true), [], true);
  }

  lemma {:induction false} CleanedLeadsOn(dir: seq<string>, stack: seq<string>, segments: seq<string>, rooted: bool)
    requires Cleaned(stack, rooted) && (rooted ==> dir == [])
    ensures Cleaned(PushAll(stack, segments, rooted), rooted)
    ensures PushAll(dir, PushAll(stack, segments, rooted), true) == PushAll(PushAll(dir, stack, true), segments, true)
    decreases |segments|
  {
    if segments != [] {
      PushLeadsOn(dir, stack, segments[0], rooted);
      CleanedLeadsOn(dir, Push(stack, segments[0], rooted), segments[1..], rooted);
    }
  }

  /**
   * A cleaned path leads where the path itself does, from the root if it is rooted and otherwise from any directory; it
   * has no empty or `.` segment, and `..` only if it is not rooted.
   */
  lemma CleanLeadsToTheSame(dir: seq<string>, path: string)
    requires "/" <= path ==> dir == []
    ensures PushAll(dir, CleanPath(path).segments, true) == PushAll(dir, Split(path, '/'), true)
    ensures Cleaned(CleanPath(path).segments, "/" <= path)
  {
    CleanedLeadsOn(dir, [], Split(path, '/'), "/" <= path);
  }

  lemma PushPlain(stack: seq<string>, name: string, rooted: bool)
    requires PlainName(name)
    ensures PushAll(stack, [name], rooted) == stack + [name]
  {
    assert [name][1..] == [];
    assert PushAll(stack, [name], rooted) == PushAll(Push(stack, name, rooted), [], rooted);
  }

  lemma JoinAddsOneSegment(dir: string, name: string)
    requires PlainName(name)
    ensures JoinPath(dir, name) == Clean(CleanPath(dir).rooted, CleanPath(dir).segments + [name])
  {
    var rooted := "/" <= dir;
    SplitPlain(name, '/');
    if dir == "" {
      PushPlain([], name, rooted);
      assert CleanPath(dir).segments == [];
    } else {
      SplitOfConcat(dir, name, '/');
      PushAllSplits([], Split(dir, '/'), [name], rooted);
      PushPlain(PushAll([], Split(dir, '/'), rooted), name, rooted);
    }
  }

  lemma {:induction false} LastSlashOfWorkspace(prefix: string, name: string)
    requires '/' !in name
    ensures UpToLastSlash(prefix + "/" + name) == prefix + "/"
    decreases |name|
  {
    var path := prefix + "/" + name;
    if name == "" {
      assert path == prefix + "/";
    } else {
      var shorter := name[..|name| - 1];
      assert path[..|path| - 1] == prefix + "/" + shorter;
      assert path[|path| - 1] == name[|name| - 1] != '/';
      LastSlashOfWorkspace(prefix, shorter);
    }
  }

  /** The directory that unregistering purges, for any root. */
  lemma PurgedDir(root: string, id: string)
    requires ValidId(id)
    ensures Dir(WorkspacePath(root, id)) == Clean("/" <= root + "/", CleanPath(root).segments + [id])
  {
    ValidIdIsPlain(id);
    var agentDir := root + "/" + id;
    var rooted := "/" <= root + "/";
    assert WorkspacePath(root, id) == agentDir + "/" + "workspace";
    LastSlashOfWorkspace(agentDir, "workspace");
    assert agentDir + "/" == agentDir + "/" + "";
    SplitOfConcat(agentDir, "", '/');
    SplitOfConcat(root, id, '/');
    SplitPlain(id, '/');
    PushAllSplits([], Split(agentDir, '/'), [""], rooted);
    PushAllSplits([], Split(root, '/'), [id], rooted);
    var stack := PushAll([], Split(root, '/'), rooted);
    PushPlain(stack, id, rooted);
    assert PushAll(stack + [id], [""], rooted) == PushAll(Push(stack + [id], "", rooted), [], rooted);
    assert root == "" ==> stack == [];
  }

  /**
   * The directory that unregistering purges is the one provisioning created, whatever the spelling of the root, exactly
   * when the root is not empty.
   */
  lemma PurgedDirIsAgentDir(root: string, id: string)
    requires ValidId(id)
    ensures Dir(WorkspacePath(root, id)) == JoinPath(root, id) <==> root != ""
    ensures JoinPath(root, id) == Clean(CleanPath(root).rooted, CleanPath(root).segments + [id])
  {
    ValidIdIsPlain(id);
    PurgedDir(root, id);
    JoinAddsOneSegment(root, id);
  }

  // ----- `..` and first segments -----

  lemma {:induction false} FieldBytes(s: string, i: nat, c: char)
    requires i < |Split(s, '/')| && c in Split(s, '/')[i]
    ensures c in s
    decreases |s|
  {
    if s != "" {
      if s[0] == '/' {
        if i > 0 {
          FieldBytes(s[1..], i - 1, c);
        }
      } else {
        var rest := Split(s[1..], '/');
        if i > 0 {
          FieldBytes(s[1..], i, c);
        } else if c != s[0] {
          assert Split(s, '/')[0] == [s[0]] + rest[0];
          FieldBytes(s[1..], 0, c);
        }
      }
    }
  }

  lemma NoDotsNoDotDot(s: string)
    requires '.' !in s
    ensures ".." !in Split(s, '/')
  {
    if ".." in Split(s, '/') {
      var i :| 0 <= i < |Split(s, '/')| && Split(s, '/')[i] == "..";
      FieldBytes(s, i, '.');
    }
  }

  lemma RootedFields(prefix: string, first: string, rest: string)
    requires prefix == "/" + first + "/" && PlainName(first)
    ensures Split(prefix + rest, '/') == [""] + [first] + Split(rest, '/')
  {
    assert prefix + rest == "" + "/" + (first + "/" + rest);
    SplitOfConcat("", first + "/" + rest, '/');
    SplitPlain("", '/');
    SplitOfConcat(first, rest, '/');
    SplitPlain(first, '/');
  }

  lemma DotDotOfTail(prefix: string, first: string, rest: string)
    requires prefix == "/" + first + "/" && PlainName(first) && ".." !in Split(prefix + rest, '/')
    ensures ".." !in Split(rest, '/')
  {
    RootedFields(prefix, first, rest);
  }

  lemma PushRooted(first: string)
    requires PlainName(first)
    ensures PushAll([], [""] + [first], true) == [first]
  {
    assert ([""] + [first])[1..] == [first] && [first][1..] == [];
    assert Push([], "", true) == [] && Push([], first, true) == [first];
    assert PushAll([], [first], true) == PushAll([first], [], true);
  }

  /** A rooted path without `..` after its first plain segment keeps that segment when cleaned. */
  lemma FirstSegmentStays(prefix: string, first: string, rest: string)
    requires prefix == "/" + first + "/" && PlainName(first) && ".." !in Split(rest, '/')
    ensures var cleaned := CleanPath(prefix + rest);
      cleaned.rooted && cleaned.segments != [] && cleaned.segments[0] == first
  {
    RootedFields(prefix, first, rest);
    PushAllSplits([], [""] + [first], Split(rest, '/'), true);
    PushRooted(first);
    PushAllGrows([first], Split(rest, '/'), true);
  }

  /** The same for a path without any dot, and for the agent directories under it. */
  lemma DotlessPath(path: string, prefix: string, first: string)
    requires prefix == "/" + first + "/" && PlainName(first) && prefix <= path && '.' !in path
    ensures CleanPath(path).segments != [] && CleanPath(path).segments[0] == first
  {
    var rest := path[|prefix|..];
    assert path == prefix + rest;
    NoDotsNoDotDot(rest);
    FirstSegmentStays(prefix, first, rest);
  }

  lemma DotlessRoot(root: string, prefix: string, first: string, name: string)
    requires prefix == "/" + first + "/" && PlainName(first) && prefix <= root && '.' !in root && PlainName(name)
    ensures JoinPath(root, name).segments != [] && JoinPath(root, name).segments[0] == first
  {
    DotlessPath(root, prefix, first);
    JoinAddsOneSegment(root, name);
  }

  lemma PushAllTakesTwo(stack: seq<string>, a: string, b: string)
    requires PlainName(a) && PlainName(b)
    ensures PushAll(stack, [a, b, "..", ".."], true) == stack
  {
    assert [a, b, "..", ".."][1..] == [b, "..", ".."];
    assert [b, "..", ".."][1..] == ["..", ".."];
    assert ["..", ".."][1..] == [".."];
    assert [".."][1..] == [];
    assert PushAll(stack, [a, b, "..", ".."], true) == PushAll(stack + [a], [b, "..", ".."], true);
    assert PushAll(stack + [a], [b, "..", ".."], true) == PushAll(stack + [a] + [b], ["..", ".."], true);
    assert Push(stack + [a] + [b], "..", true) == stack + [a];
    assert Push(stack + [a], "..", true) == stack;
    assert PushAll(stack + [a] + [b], ["..", ".."], true) == PushAll(stack + [a], [".."], true);
  }

  // ----- The tree of files and directories -----

  /** Every existing file and directory, by cleaned path. */
  type Tree = set<Clean>

  predicate Under(dir: Clean, p: Clean) {
    dir.rooted == p.rooted && dir.segments <= p.segments
  }

  /** os.RemoveAll: the directory and everything below it. */
  function RemoveAll(tree: Tree, dir: Clean): Tree {
    set p | p in tree && !Under(dir, p)
  }

  /** os.MkdirAll: the directory and all its parents. */
  function MkdirAll(tree: Tree, dir: Clean): Tree {
    tree + set n | 0 <= n <= |dir.segments| :: Clean(dir.rooted, dir.segments[..n])
  }

  function Child(dir: Clean, name: string): Clean {
    Clean(dir.rooted, dir.segments + [name])
  }

  /** Which of the file operations of provisioning succeed. */
  datatype Provisioning = Provisioning(makeAgentDir: bool, makeWorkspace: bool, writeMetadata: bool)

  /** SandboxManager.ProvisionWorkspace: agent directory, workspace, metadata file; stops at the first failure. */
  function ProvisionWorkspace(tree: Tree, root: string, id: string, env: Provisioning): (Tree, Option<string>) {
    var agentDir := JoinPath(root, id);
    if !env.makeAgentDir then (tree, None)
    else
      var withDir := MkdirAll(tree, agentDir);
      if !env.makeWorkspace then (withDir, None)
      else
        var withWorkspace := withDir + {CleanPath(WorkspacePath(root, id))};
        if !env.writeMetadata then (withWorkspace, None)
        else (withWorkspace + {Child(agentDir, "agent.id")}, Some(WorkspacePath(root, id)))
  }

  /** Purging as Unregister does it, from the recorded workspace path. */
  function Purge(tree: Tree, workspacePath: string): Tree {
    RemoveAll(tree, Dir(workspacePath))
  }

  /** Different plain names under one root have disjoint subtrees. */
  lemma SiblingsAreDisjoint(root: string, a: string, b: string, p: Clean)
    requires PlainName(a) && PlainName(b)
    requires Under(JoinPath(root, a), p) && Under(JoinPath(root, b), p)
    ensures a == b
  {
    JoinAddsOneSegment(root, a);
    JoinAddsOneSegment(root, b);
    var n := |CleanPath(root).segments|;
    assert p.segments[n] == JoinPath(root, a).segments[n] == a;
    assert p.segments[n] == JoinPath(root, b).segments[n] == b;
  }

  /** Purging `id` removes exactly the paths under root/id, and for any root nothing of any other agent. */
  lemma PurgeIsConfined(tree: Tree, root: string, id: string, p: Clean)
    requires ValidId(id)
    ensures root != "" ==> (p in Purge(tree, WorkspacePath(root, id)) <==> p in tree && !Under(JoinPath(root, id), p))
    ensures forall other | ValidId(other) && other != id ::
              p in tree && (Under(JoinPath(root, other), p) || Under(Dir(WorkspacePath(root, other)), p))
              ==> p in Purge(tree, WorkspacePath(root, id))
  {
    PurgedDirIsAgentDir(root, id);
    forall other | ValidId(other) && other != id
      ensures !(Under(JoinPath(root, other), p) && Under(Dir(WorkspacePath(root, id)), p))
      ensures !(Under(Dir(WorkspacePath(root, other)), p) && Under(Dir(WorkspacePath(root, id)), p))
    {
      ValidIdIsPlain(other);
      PurgedDir(root, id);
      PurgedDir(root, other);
      JoinAddsOneSegment(root, other);
      DifferentSegments(CleanPath(root).segments, id, other, p.segments);
    }
  }

  lemma DifferentSegments(stack: seq<string>, a: string, b: string, segments: seq<string>)
    requires a != b
    ensures !(stack + [a] <= segments && stack + [b] <= segments)
  {
    assert (stack + [a])[|stack|] == a && (stack + [b])[|stack|] == b;
  }

  /** The registry, its temporary file and the root itself survive every purge, for any root. */
  lemma PurgeKeepsRegistry(tree: Tree, root: string, id: string)
    requires ValidId(id)
    ensures JoinPath(root, "registry.json") in tree
      ==> JoinPath(root, "registry.json") in Purge(tree, WorkspacePath(root, id))
    ensures JoinPath(root, "registry.json.tmp") in tree ==>
      JoinPath(root, "registry.json.tmp") in Purge(tree, WorkspacePath(root, id))
    ensures CleanPath(root) in tree ==> CleanPath(root) in Purge(tree, WorkspacePath(root, id))
  {
    ValidIdIsPlain(id);
    assert "registry.json"[8] == '.' && "registry.json.tmp"[8] == '.';
    PurgedDir(root, id);
    FileSurvives(root, id, "registry.json");
    FileSurvives(root, id, "registry.json.tmp");
  }

  lemma FileSurvives(root: string, id: string, name: string)
    requires ValidId(id) && PlainName(name) && name != id
    ensures !Under(Dir(WorkspacePath(root, id)), JoinPath(root, name))
  {
    PurgedDir(root, id);
    JoinAddsOneSegment(root, name);
    DifferentSegments(CleanPath(root).segments, id, name, CleanPath(root).segments + [name]);
  }

  lemma WorkspaceSegments(root: string, id: string)
    requires root != "" && ValidId(id)
    ensures CleanPath(WorkspacePath(root, id)) == Child(JoinPath(root, id), "workspace")
  {
    assert WorkspacePath(root, id) == (root + "/" + id) + "/" + "workspace";
    JoinAddsOneSegment(root + "/" + id, "workspace");
  }

  /**
   * What provisioning makes, as far as it gets: the agent's directory with its parents, in it `workspace`, in it
   * `agent.id`. The path of the workspace is returned exactly if all three are there.
   */
  lemma ProvisionMakes(tree: Tree, root: string, id: string, env: Provisioning, p: Clean)
    requires root != "" && ValidId(id)
    ensures var (after, path) := ProvisionWorkspace(tree, root, id, env);
      var dir := Clean(CleanPath(root).rooted, CleanPath(root).segments + [id]);
      && (path == if env == Provisioning(true, true, true) then Some(root + "/" + id + "/workspace") else None)
      && (p in after <==>
            || p in tree
            || (env.makeAgentDir && p.rooted == dir.rooted && p.segments <= dir.segments)
            || (env.makeAgentDir && env.makeWorkspace && p == Clean(dir.rooted, dir.segments + ["workspace"]))
            || (env == Provisioning(true, true, true) && p == Clean(dir.rooted, dir.segments + ["agent.id"])))
  {
    WorkspaceSegments(root, id);
    JoinAddsOneSegment(root, id);
    ValidIdIsPlain(id);
    var dir := JoinPath(root, id);
    assert p.segments <= dir.segments ==> p.segments == dir.segments[..|p.segments|];
    assert p in MkdirAll(tree, dir) <==> p in tree || (p.rooted == dir.rooted && p.segments <= dir.segments);
  }

  /** However far provisioning got, purging afterwards leaves nothing of it below the root. */
  lemma PurgeUndoesProvision(tree: Tree, root: string, id: string, env: Provisioning)
    requires root != "" && ValidId(id)
    ensures var (provisioned, path) := ProvisionWorkspace(tree, root, id, env);
      && Purge(provisioned, WorkspacePath(root, id)) <= Purge(MkdirAll(tree, CleanPath(root)), WorkspacePath(root, id))
      && (path.Some? <==> env == Provisioning(true, true, true))
  {
    PurgedDirIsAgentDir(root, id);
    WorkspaceSegments(root, id);
    var dir, top := JoinPath(root, id), CleanPath(root);
    var provisioned := ProvisionWorkspace(tree, root, id, env).0;
    forall p | p in provisioned && !Under(dir, p)
      ensures p in MkdirAll(tree, top)
    {
      if p !in tree {
        assert p in MkdirAll(tree, dir);
        var n :| 0 <= n <= |dir.segments| && p == Clean(dir.rooted, dir.segments[..n]);
        assert dir.segments[..|dir.segments|] == dir.segments && Under(dir, dir);
        assert dir.segments[..n] == top.segments[..n];
      }
    }
  }

  /** Provisioning again after a complete or an interrupted attempt gives what one complete attempt gives. */
  lemma ProvisionIsIdempotent(tree: Tree, root: string, id: string, env: Provisioning)
    ensures var all := Provisioning(true, true, true);
      ProvisionWorkspace(ProvisionWorkspace(tree, root, id, env).0, root, id, all)
        == ProvisionWorkspace(tree, root, id, all)
  {
    var all := Provisioning(true, true, true);
    var dir := JoinPath(root, id);
    var first := ProvisionWorkspace(tree, root, id, env).0;
    assert MkdirAll(first, dir) + {CleanPath(WorkspacePath(root, id))} + {Child(dir, "agent.id")}
        == MkdirAll(tree, dir) + {CleanPath(WorkspacePath(root, id))} + {Child(dir, "agent.id")};
  }
}
