/** What happens to the decision when operators add modules to the base policy. */
module OperatorModules {
  import opened Wrappers
  import opened Text
  import opened Identity
  import opened Records
  import opened Rego
  import opened BasePolicy
  import opened RuleMeanings
  import opened Decisions

  /** The rank a program is evaluated by does not matter. */
  lemma {:induction false} RankIrrelevant(p: Program, rank: RuleName -> nat, other: RuleName -> nat, n: RuleName,
                                          input: Input)
    requires Ranked(p, rank) && Ranked(p, other)
    ensures Holds(p, rank, n, input) <==> Holds(p, other, n, input)
    decreases rank(n), 1
  {
    assert RuleBelow(p, n, rank) && RuleBelow(p, n, other);
    forall i | 0 <= i < |Bodies(p, n)|
      ensures BodyHolds(p, rank, rank(n), Bodies(p, n)[i], input)
        <==> BodyHolds(p, other, other(n), Bodies(p, n)[i], input)
    {
      var body := Bodies(p, n)[i];
      forall j | 0 <= j < |body|
        ensures LiteralHolds(p, rank, rank(n), body[j], input) <==> LiteralHolds(p, other, other(n), body[j], input)
      {
        RankIrrelevantForLiteral(p, rank, other, rank(n), other(n), body[j], input);
      }
    }
  }

  lemma {:induction false} RankIrrelevantForLiteral(p: Program, rank: RuleName -> nat, other: RuleName -> nat,
                                                    bound: nat, otherBound: nat, lit: Literal, input: Input)
    requires Ranked(p, rank) && Ranked(p, other) && Below(lit, rank, bound) && Below(lit, other, otherBound)
    ensures LiteralHolds(p, rank, bound, lit, input) <==> LiteralHolds(p, other, otherBound, lit, input)
    decreases bound, 0, lit
  {
    match lit
    case Rule(name) => RankIrrelevant(p, rank, other, name, input);
    case Not(negated) => RankIrrelevantForLiteral(p, rank, other, bound, otherBound, negated, input);
    case _ =>
  }

  /**
   * An operator may extend the allow side: `allow` itself, its helper rules, the network rule, and rules of its own.
   */
  function AllowGrows(n: RuleName): Sign {
    match n
    case Allow | SomeAllowRuleMatches | AllowNetwork | OperatorRule(_) => Up
    case _ => Fixed
  }

  /** Or the deny side. */
  function DenyGrows(n: RuleName): Sign {
    match n
    case Allow => Down
    case DenyRuleMatches | ActionTargetsSensitivePath | OperatorRule(_) => Up
    case _ => Fixed
  }

  lemma BaseIsSigned()
    ensures Signed(BASE, AllowGrows) && Signed(BASE, DenyGrows)
  {
    forall n, i, j | 0 <= i < |Bodies(BASE, n)| && 0 <= j < |Bodies(BASE, n)[i]|
      ensures var lit := Bodies(BASE, n)[i][j];
        && (AllowGrows(n) != Down ==> Moves(lit, AllowGrows, true))
           && (AllowGrows(n) != Up ==> Moves(lit, AllowGrows, false))
        && (DenyGrows(n) != Down ==> Moves(lit, DenyGrows, true))
           && (DenyGrows(n) != Up ==> Moves(lit, DenyGrows, false))
    {
      BaseBodiesAre(n);
      BaseLiteralIsSigned(n, i, j);
    }
  }

  lemma BaseLiteralIsSigned(n: RuleName, i: nat, j: nat)
    requires i < |BaseBodies(n)| && j < |BaseBodies(n)[i]|
    ensures var lit := BaseBodies(n)[i][j];
      && (AllowGrows(n) != Down ==> Moves(lit, AllowGrows, true))
         && (AllowGrows(n) != Up ==> Moves(lit, AllowGrows, false))
      && (DenyGrows(n) != Down ==> Moves(lit, DenyGrows, true)) && (DenyGrows(n) != Up ==> Moves(lit, DenyGrows, false))
  {
    match BaseBodies(n)[i][j]
    case Not(negated) =>
      assert Moves(negated, AllowGrows, true) || n == Allow;
    case _ =>
  }

  /** Modules that add only allow-side bodies allow everything the base policy allows. */
  lemma ExtraAllowEnlarges(q: Program, rank: RuleName -> nat, lib: NetLibrary, agent: AgentRecord,
                           action: AgentAction)
    requires Ranked(BASE, rank) && Ranked(q, rank) && ChangedBySign(BASE, q, AllowGrows)
    ensures Allowed(lib, agent, action) ==> Holds(q, rank, Allow, Input(action, agent, lib))
  {
    var input := Input(action, agent, lib);
    BaseIsRanked();
    BaseIsSigned();
    RankIrrelevant(BASE, Rank, rank, Allow, input);
    Monotone(BASE, q, rank, AllowGrows, Allow, input);
  }

  /** Modules that add only deny-side bodies allow nothing the base policy does not. */
  lemma ExtraDenyShrinks(q: Program, rank: RuleName -> nat, lib: NetLibrary, agent: AgentRecord,
                           action: AgentAction)
    requires Ranked(BASE, rank) && Ranked(q, rank) && ChangedBySign(BASE, q, DenyGrows)
    ensures Holds(q, rank, Allow, Input(action, agent, lib)) ==> Allowed(lib, agent, action)
  {
    var input := Input(action, agent, lib);
    BaseIsRanked();
    BaseIsSigned();
    RankIrrelevant(BASE, Rank, rank, Allow, input);
    Monotone(BASE, q, rank, DenyGrows, Allow, input);
  }

  // ----- Deny precedence -----

  /** Only `allow` itself gets further bodies. */
  function OnlyAllowGrows(n: RuleName): Sign {
    if n == Allow then Up else Fixed
  }

  function DirectoryBody(dir: string): Body {
    [TypeIn({READ}), ResourceStartsWithSome([dir])]
  }

  /** The base policy with the custom module of docs/policy-reference.md: an `allow` body for reads below `dir`. */
  function WithReadableDirectory(dir: string): Program {
    Merge(BASE, map[Allow := [DirectoryBody(dir)]])
  }

  lemma WithDirectoryBodies(dir: string, n: RuleName)
    ensures Bodies(WithReadableDirectory(dir), n) == BaseBodies(n) + if n == Allow then [DirectoryBody(dir)] else []
  {
    MergeBodies(BASE, map[Allow := [DirectoryBody(dir)]], n);
    BaseBodiesAre(n);
  }

  lemma WithDirectoryIsRanked(dir: string)
    ensures Ranked(WithReadableDirectory(dir), Rank)
  {
    forall n ensures RuleBelow(WithReadableDirectory(dir), n, Rank) {
      WithDirectoryBodies(dir, n);
      BaseRuleIsRanked(n);
      assert BodyBelow(DirectoryBody(dir), Rank, Rank(n));
    }
  }

  lemma OtherRulesUnchanged(dir: string, n: RuleName, input: Input)
    requires Ranked(WithReadableDirectory(dir), Rank) && n != Allow
    ensures Holds(WithReadableDirectory(dir), Rank, n, input) <==> Base(n, input)
  {
    BaseIsRanked();
    forall m, i, j | 0 <= i < |Bodies(BASE, m)| && 0 <= j < |Bodies(BASE, m)[i]|
      ensures var lit := Bodies(BASE, m)[i][j];
        && (OnlyAllowGrows(m) != Down ==> Moves(lit, OnlyAllowGrows, true))
        && (OnlyAllowGrows(m) != Up ==> Moves(lit, OnlyAllowGrows, false))
    {
      BaseBodiesAre(m);
      NothingRefersToAllow(m, i, j);
    }
    forall m
      ensures forall b :: b in Bodies(BASE, m) ==> b in Bodies(WithReadableDirectory(dir), m)
      ensures m != Allow ==> forall b :: b in Bodies(WithReadableDirectory(dir), m) ==> b in Bodies(BASE, m)
    {
      WithDirectoryBodies(dir, m);
      BaseBodiesAre(m);
    }
    Monotone(BASE, WithReadableDirectory(dir), Rank, OnlyAllowGrows, n, input);
  }

  lemma NothingRefersToAllow(n: RuleName, i: nat, j: nat)
    requires i < |BaseBodies(n)| && j < |BaseBodies(n)[i]|
    ensures Moves(BaseBodies(n)[i][j], OnlyAllowGrows, true) && Moves(BaseBodies(n)[i][j], OnlyAllowGrows, false)
  {
    match BaseBodies(n)[i][j]
    case Not(negated) =>
      assert Moves(negated, OnlyAllowGrows, true) && Moves(negated, OnlyAllowGrows, false);
    case _ =>
  }

  lemma RuleLiteralWithDirectory(dir: string, n: RuleName, input: Input)
    requires Ranked(WithReadableDirectory(dir), Rank) && n != Allow && Rank(n) < Rank(Allow)
    ensures LiteralHolds(WithReadableDirectory(dir), Rank, Rank(Allow), Rule(n), input) <==> Base(n, input)
  {
    OtherRulesUnchanged(dir, n, input);
  }

  lemma ShippedBodyWithDirectory(dir: string, input: Input)
    requires Ranked(WithReadableDirectory(dir), Rank)
    ensures BodyHolds(WithReadableDirectory(dir), Rank, Rank(Allow), ALLOW_BODIES[0], input) <==> Base(Allow, input)
  {
    var q, shipped := WithReadableDirectory(dir), ALLOW_BODIES[0];
    AllowMeaning(input);
    RuleLiteralWithDirectory(dir, SomeAllowRuleMatches, input);
    RuleLiteralWithDirectory(dir, DenyRuleMatches, input);
    assert LiteralHolds(q, Rank, Rank(Allow), shipped[0], input) <==> Base(SomeAllowRuleMatches, input);
    assert LiteralHolds(q, Rank, Rank(Allow), shipped[1], input) <==> !Base(DenyRuleMatches, input);
  }

  lemma ExtraBodyWithDirectory(dir: string, input: Input)
    requires Ranked(WithReadableDirectory(dir), Rank)
    ensures BodyHolds(WithReadableDirectory(dir), Rank, Rank(Allow), DirectoryBody(dir), input)
       <==> input.action.actionType == READ && dir <= input.action.resource
  {
    var q, extra := WithReadableDirectory(dir), DirectoryBody(dir);
    OnePrefix(input.action.resource, dir);
    assert LiteralHolds(q, Rank, Rank(Allow), extra[0], input) <==> input.action.actionType == READ;
    assert LiteralHolds(q, Rank, Rank(Allow), extra[1], input) <==> dir <= input.action.resource;
  }

  lemma AllowWithDirectory(dir: string, input: Input)
    requires Ranked(WithReadableDirectory(dir), Rank)
    ensures Holds(WithReadableDirectory(dir), Rank, Allow, input)
       <==> Base(Allow, input) || (input.action.actionType == READ && dir <= input.action.resource)
  {
    var q := WithReadableDirectory(dir);
    WithDirectoryBodies(dir, Allow);
    assert RuleBelow(q, Allow, Rank);
    assert Bodies(q, Allow)[0] == ALLOW_BODIES[0] && Bodies(q, Allow)[1] == DirectoryBody(dir);
    ShippedBodyWithDirectory(dir, input);
    ExtraBodyWithDirectory(dir, input);
  }

  predicate Comparable(p: string, q: string) {
    p <= q || q <= p
  }

  /** Where the deny rules can veto a read. */
  predicate DeniedPrefix(p: string) {
    p == AGENTS_DIR || exists i :: 0 <= i < |SENSITIVE_PREFIXES| && SENSITIVE_PREFIXES[i] == p
  }

  /** An action of an agent that the manager made under the default root. */
  predicate Received(input: Input) {
    Managed(DEFAULT_ROOT, input.agent) && input.action.agentId == input.agent.id
  }

  /**
   * Deny rules take precedence only inside the shipped `allow` body. After the documented kind of custom module they
   * still veto every action of every managed agent exactly when the module's directory neither contains nor lies in a
   * denied directory.
   */
  lemma DenyPrecedence(lib: NetLibrary, dir: string)
    ensures Ranked(WithReadableDirectory(dir), Rank)
    ensures (forall input: Input :: Received(input) && input.lib == lib
                                    && Holds(WithReadableDirectory(dir), Rank, DenyRuleMatches, input)
                                    ==> !Holds(WithReadableDirectory(dir), Rank, Allow, input))
       <==> (forall p :: DeniedPrefix(p) ==> !Comparable(dir, p))
  {
    WithDirectoryIsRanked(dir);
    var q := WithReadableDirectory(dir);
    if p :| DeniedPrefix(p) && Comparable(dir, p) {
      DeniedYetAllowed(lib, dir, p);
    }
    if input: Input :| Received(input) && Holds(q, Rank, DenyRuleMatches, input) && Holds(q, Rank, Allow, input) {
      DeniedAndAllowedIsComparable(dir, input);
    }
  }

  /** A valid id whose workspace path does not begin `resource`. */
  function Bystander(resource: string): string {
    if WorkspacePath(DEFAULT_ROOT, "aa") <= resource then "bb" else "aa"
  }

  lemma BystanderIsOutside(resource: string)
    ensures ValidId(Bystander(resource)) && !(WorkspacePath(DEFAULT_ROOT, Bystander(resource)) <= resource)
  {
    assert ValidId("aa") && ValidId("bb") && "aa"[0] != "bb"[0];
    if WorkspacePath(DEFAULT_ROOT, "aa") <= resource && WorkspacePath(DEFAULT_ROOT, "bb") <= resource {
      WorkspacesNeverOverlap(DEFAULT_ROOT, "aa", "bb", resource);
    }
  }

  lemma DeniedYetAllowed(lib: NetLibrary, dir: string, p: string)
    requires Ranked(WithReadableDirectory(dir), Rank) && DeniedPrefix(p) && Comparable(dir, p)
    ensures exists input: Input :: Received(input) && input.lib == lib
                                   && Holds(WithReadableDirectory(dir), Rank, DenyRuleMatches, input)
                                   && Holds(WithReadableDirectory(dir), Rank, Allow, input)
  {
    var resource := if dir <= p then p else dir;
    var id := Bystander(resource);
    BystanderIsOutside(resource);
    var agent := AgentRecord(id, MINIMAL, WorkspacePath(DEFAULT_ROOT, id), [], [], 0, None);
    var input := Input(AgentAction(id, READ, resource, map[], 0), agent, lib);
    DenyMeaning(input);
    OtherRulesUnchanged(dir, DenyRuleMatches, input);
    AllowWithDirectory(dir, input);
    assert p <= resource;
    assert Received(input);
  }

  lemma DeniedAndAllowedIsComparable(dir: string, input: Input)
    requires Ranked(WithReadableDirectory(dir), Rank)
    requires Holds(WithReadableDirectory(dir), Rank, DenyRuleMatches, input)
    requires Holds(WithReadableDirectory(dir), Rank, Allow, input)
    ensures exists p :: DeniedPrefix(p) && Comparable(dir, p)
  {
    var resource := input.action.resource;
    AllowMeaning(input);
    OtherRulesUnchanged(dir, DenyRuleMatches, input);
    AllowWithDirectory(dir, input);
    DeniedReadPrefix(input);
    var p :| DeniedPrefix(p) && p <= resource;
    PrefixesCompare(dir, p, resource);
    assert Comparable(dir, p);
  }

  lemma DeniedReadPrefix(input: Input)
    requires input.action.actionType == READ && Base(DenyRuleMatches, input)
    ensures exists p :: DeniedPrefix(p) && p <= input.action.resource
  {
    DenyMeaning(input);
    if i :| 0 <= i < |SENSITIVE_PREFIXES| && SENSITIVE_PREFIXES[i] <= input.action.resource {
      assert DeniedPrefix(SENSITIVE_PREFIXES[i]);
    } else {
      assert DeniedPrefix(AGENTS_DIR);
    }
  }
}
