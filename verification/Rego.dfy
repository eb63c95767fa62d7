/**
 * The fragment of Rego the base policies use: rules as lists of bodies, negation, sets, prefixes, prefixes of
 * addresses.
 */
module Rego {
  import opened Wrappers
  import opened Records
  import opened Address

  /** The first operand of net.cidr_contains: an IPv4 prefix, or the prefix ::1/128. */
  datatype Block = V4(net: Cidr) | LoopbackV6

  /** What net.cidr_contains answers on texts with a colon or a slash: IPv6 addresses and prefixes, or an error. */
  type NetLibrary = (Block, string) -> Option<bool>

  /** A policy input, with the library that evaluates it. */
  datatype Input = Input(action: AgentAction, agent: AgentRecord, lib: NetLibrary)

  datatype RuleName =
    // package atomic.agent
    | Allow | AuditRequired | DenyRuleMatches | SomeAllowRuleMatches | ActionTargetsSensitivePath
    // package atomic.agent.network
    | AllowNetwork | IsBlockedEndpoint | IsPrivateNetwork
    // package atomic.agent.filesystem
    | IsNeverWritable | IsNeverReadable | IsWorkspaceWrite | IsPermittedRead
    // any rule an operator's own module adds
    | OperatorRule(n: nat)

  datatype Literal =
    | TypeIn(types: set<string>)
    | ResourceIn(resources: set<string>)
    | ResourceStartsWithSome(prefixes: seq<string>)
    | ResourceInWorkspace
    | ProfileIn(profiles: set<string>)
    | ResourceInCidr(block: Block)
    | Rule(name: RuleName)
    | Not(negated: Literal)

  type Body = seq<Literal>
  type Program = map<RuleName, seq<Body>>

  function Bodies(p: Program, n: RuleName): seq<Body> {
    if n in p then p[n] else []
  }

  /** An IPv4 address or a host name: neither an IPv6 address nor a prefix in slash notation. */
  predicate Endpoint(s: string) {
    ':' !in s && '/' !in s
  }

  /**
   * net.cidr_contains: on an endpoint by its octets, an error if it is no address; on other texts the library's answer.
   */
  function CidrContains(lib: NetLibrary, block: Block, operand: string): Option<bool> {
    if !Endpoint(operand) then lib(block, operand)
    else
      match ParseIPv4(operand)
      case Some(ip) => Some(block.V4? && InPrefix(block.net, ip))
      case None => None
  }

  /** The builtin's answer as a literal: an error, like `false`, makes the literal fail. */
  predicate InCidr(lib: NetLibrary, block: Block, operand: string) {
    CidrContains(lib, block, operand) == Some(true)
  }

  // ----- Stratification: every rule refers only to rules of lower rank -----

  predicate Below(lit: Literal, rank: RuleName -> nat, bound: nat) {
    match lit
    case Rule(name) => rank(name) < bound
    case Not(negated) => Below(negated, rank, bound)
    case _ => true
  }

  predicate BodyBelow(body: Body, rank: RuleName -> nat, bound: nat) {
    forall j :: 0 <= j < |body| ==> Below(body[j], rank, bound)
  }

  predicate RuleBelow(p: Program, n: RuleName, rank: RuleName -> nat) {
    forall i :: 0 <= i < |Bodies(p, n)| ==> BodyBelow(Bodies(p, n)[i], rank, rank(n))
  }

  ghost predicate Ranked(p: Program, rank: RuleName -> nat) {
    forall n :: RuleBelow(p, n, rank)
  }

  // ----- Evaluation -----

  /** A rule holds when some body of it holds. */
  ghost predicate Holds(p: Program, rank: RuleName -> nat, n: RuleName, input: Input)
    requires Ranked(p, rank)
    decreases rank(n), 2
  {
    assert RuleBelow(p, n, rank);
    exists i :: 0 <= i < |Bodies(p, n)| && BodyHolds(p, rank, rank(n), Bodies(p, n)[i], input)
  }

  /** A body holds when all its literals do. */
  ghost predicate BodyHolds(p: Program, rank: RuleName -> nat, bound: nat, body: Body, input: Input)
    requires Ranked(p, rank) && BodyBelow(body, rank, bound)
    decreases bound, 1
  {
    forall j :: 0 <= j < |body| ==> LiteralHolds(p, rank, bound, body[j], input)
  }

  /** A builtin error makes its literal fail, so the negation of that literal holds. */
  ghost predicate LiteralHolds(p: Program, rank: RuleName -> nat, bound: nat, lit: Literal, input: Input)
    requires Ranked(p, rank) && Below(lit, rank, bound)
    decreases bound, 0, lit
  {
    match lit
    case TypeIn(types) => input.action.actionType in types
    case ResourceIn(resources) => input.action.resource in resources
    case ResourceStartsWithSome(prefixes) => StartsWithSome(input.action.resource, prefixes)
    case ResourceInWorkspace => input.agent.workspacePath <= input.action.resource
    case ProfileIn(profiles) => input.agent.profile in profiles
    case ResourceInCidr(block) => InCidr(input.lib, block, input.action.resource)
    case Rule(name) => Holds(p, rank, name, input)
    case Not(negated) => !LiteralHolds(p, rank, bound, negated, input)
  }

  predicate StartsWithSome(s: string, prefixes: seq<string>) {
    exists i :: 0 <= i < |prefixes| && prefixes[i] <= s
  }

  // ----- Laws of rule programs -----

  /** How a rule is allowed to move when a program is changed. */
  datatype Sign = Up | Down | Fixed

  /** The literal can only move upwards (or, with `upward` false, only downwards) when the rules move by their signs. */
  predicate Moves(lit: Literal, sign: RuleName -> Sign, upward: bool) {
    match lit
    case Rule(name) => sign(name) == Fixed || sign(name) == (if upward then Up else Down)
    case Not(negated) => Moves(negated, sign, !upward)
    case _ => true
  }

  ghost predicate Signed(p: Program, sign: RuleName -> Sign) {
    forall n, i, j :: 0 <= i < |Bodies(p, n)| && 0 <= j < |Bodies(p, n)[i]| ==>
      var lit := Bodies(p, n)[i][j];
      (sign(n) != Down ==> Moves(lit, sign, true)) && (sign(n) != Up ==> Moves(lit, sign, false))
  }

  /** From `p` to `q`, rules going up keep their bodies and rules going down get no new ones. */
  ghost predicate ChangedBySign(p: Program, q: Program, sign: RuleName -> Sign) {
    forall n ::
      && (sign(n) != Down ==> forall b :: b in Bodies(p, n) ==> b in Bodies(q, n))
      && (sign(n) != Up ==> forall b :: b in Bodies(q, n) ==> b in Bodies(p, n))
  }

  /** Changing bodies in the direction of the signs moves every rule in the direction of its sign. */
  lemma {:induction false} Monotone(p: Program, q: Program, rank: RuleName -> nat, sign: RuleName -> Sign,
                                    n: RuleName, input: Input)
    requires Ranked(p, rank) && Ranked(q, rank) && Signed(p, sign) && ChangedBySign(p, q, sign)
    ensures sign(n) != Down && Holds(p, rank, n, input) ==> Holds(q, rank, n, input)
    ensures sign(n) != Up && Holds(q, rank, n, input) ==> Holds(p, rank, n, input)
    decreases rank(n), 3
  {
    if sign(n) != Down && Holds(p, rank, n, input) {
      MonotoneUp(p, q, rank, sign, n, input);
    }
    if sign(n) != Up && Holds(q, rank, n, input) {
      MonotoneDown(p, q, rank, sign, n, input);
    }
  }

  lemma {:induction false} MonotoneUp(p: Program, q: Program, rank: RuleName -> nat, sign: RuleName -> Sign,
                                      n: RuleName, input: Input)
    requires Ranked(p, rank) && Ranked(q, rank) && Signed(p, sign) && ChangedBySign(p, q, sign)
    requires sign(n) != Down && Holds(p, rank, n, input)
    ensures Holds(q, rank, n, input)
    decreases rank(n), 2
  {
    assert RuleBelow(p, n, rank) && RuleBelow(q, n, rank);
    var i :| 0 <= i < |Bodies(p, n)| && BodyHolds(p, rank, rank(n), Bodies(p, n)[i], input);
    var body := Bodies(p, n)[i];
    forall j | 0 <= j < |body| ensures LiteralHolds(q, rank, rank(n), body[j], input) {
      MonotoneLiteral(p, q, rank, sign, rank(n), body[j], true, input);
    }
    assert body in Bodies(p, n) && body in Bodies(q, n);
    var k :| 0 <= k < |Bodies(q, n)| && Bodies(q, n)[k] == body;
    assert BodyHolds(q, rank, rank(n), Bodies(q, n)[k], input);
  }

  lemma {:induction false} MonotoneDown(p: Program, q: Program, rank: RuleName -> nat, sign: RuleName -> Sign,
                                        n: RuleName, input: Input)
    requires Ranked(p, rank) && Ranked(q, rank) && Signed(p, sign) && ChangedBySign(p, q, sign)
    requires sign(n) != Up && Holds(q, rank, n, input)
    ensures Holds(p, rank, n, input)
    decreases rank(n), 2
  {
    assert RuleBelow(p, n, rank) && RuleBelow(q, n, rank);
    var i :| 0 <= i < |Bodies(q, n)| && BodyHolds(q, rank, rank(n), Bodies(q, n)[i], input);
    var body := Bodies(q, n)[i];
    assert body in Bodies(q, n) && body in Bodies(p, n);
    var k :| 0 <= k < |Bodies(p, n)| && Bodies(p, n)[k] == body;
    forall j | 0 <= j < |body| ensures LiteralHolds(p, rank, rank(n), body[j], input) {
      assert Bodies(p, n)[k][j] == body[j];
      MonotoneLiteral(p, q, rank, sign, rank(n), body[j], false, input);
    }
    assert BodyHolds(p, rank, rank(n), Bodies(p, n)[k], input);
  }

  lemma {:induction false} MonotoneLiteral(p: Program, q: Program, rank: RuleName -> nat, sign: RuleName -> Sign,
                                           bound: nat, lit: Literal, upward: bool, input: Input)
    requires Ranked(p, rank) && Ranked(q, rank) && Signed(p, sign) && ChangedBySign(p, q, sign)
    requires Below(lit, rank, bound) && Moves(lit, sign, upward)
    ensures upward && LiteralHolds(p, rank, bound, lit, input) ==> LiteralHolds(q, rank, bound, lit, input)
    ensures !upward && LiteralHolds(q, rank, bound, lit, input) ==> LiteralHolds(p, rank, bound, lit, input)
    decreases bound, 0, lit
  {
    match lit
    case Rule(name) => Monotone(p, q, rank, sign, name, input);
    case Not(negated) => MonotoneLiteral(p, q, rank, sign, bound, negated, !upward, input);
    case _ =>
  }

  /** Order and repetition of bodies do not matter. */
  lemma SameBodiesSameDecision(p: Program, q: Program, rank: RuleName -> nat, n: RuleName, input: Input)
    requires Ranked(p, rank) && Ranked(q, rank)
    requires forall m, b :: b in Bodies(p, m) <==> b in Bodies(q, m)
    ensures Holds(p, rank, n, input) <==> Holds(q, rank, n, input)
  {
    var sign := (m: RuleName) => Fixed;
    forall m, i, j | 0 <= i < |Bodies(p, m)| && 0 <= j < |Bodies(p, m)[i]|
      ensures Moves(Bodies(p, m)[i][j], sign, true) && Moves(Bodies(p, m)[i][j], sign, false)
    {
      FixedMoves(Bodies(p, m)[i][j], sign);
    }
    Monotone(p, q, rank, sign, n, input);
  }

  lemma {:induction false} FixedMoves(lit: Literal, sign: RuleName -> Sign)
    requires forall n :: sign(n) == Fixed
    ensures Moves(lit, sign, true) && Moves(lit, sign, false)
    decreases lit
  {
    match lit
    case Not(negated) => FixedMoves(negated, sign);
    case _ =>
  }

  // ----- Modules -----

  /** Rules of the same name in two modules are one rule with the bodies of both. */
  function Merge(p: Program, q: Program): Program {
    map n | n in p.Keys + q.Keys :: Bodies(p, n) + Bodies(q, n)
  }

  function MergeAll(modules: seq<Program>): Program {
    if modules == [] then map[] else Merge(modules[0], MergeAll(modules[1..]))
  }

  lemma MergeBodies(p: Program, q: Program, n: RuleName)
    ensures Bodies(Merge(p, q), n) == Bodies(p, n) + Bodies(q, n)
  {
  }

  /** The bodies of one rule, file by file. */
  function BodiesInOrder(modules: seq<Program>, n: RuleName): seq<Body> {
    if modules == [] then [] else Bodies(modules[0], n) + BodiesInOrder(modules[1..], n)
  }

  lemma {:induction false} MergeAllBodies(modules: seq<Program>, n: RuleName)
    ensures Bodies(MergeAll(modules), n) == BodiesInOrder(modules, n)
  {
    if modules != [] {
      MergeBodies(modules[0], MergeAll(modules[1..]), n);
      MergeAllBodies(modules[1..], n);
    }
  }

  lemma FirstInOrder(p: Program, rest: seq<Program>, n: RuleName)
    ensures BodiesInOrder([p] + rest, n) == Bodies(p, n) + BodiesInOrder(rest, n)
  {
    assert ([p] + rest)[1..] == rest;
  }

  lemma ThreeInOrder(p: Program, q: Program, r: Program, n: RuleName)
    ensures BodiesInOrder([p, q, r], n) == Bodies(p, n) + Bodies(q, n) + Bodies(r, n)
  {
    assert [p, q, r] == [p] + ([q] + ([r] + []));
    FirstInOrder(p, [q] + ([r] + []), n);
    FirstInOrder(q, [r] + [], n);
    FirstInOrder(r, [], n);
  }

  /** A source file, as the names of the rules it defines and their bodies. */
  function ModuleOf(rules: set<RuleName>, bodies: RuleName -> seq<Body>): Program {
    map n | n in rules :: bodies(n)
  }

  /** Three files that define different rules merge into one program with the bodies of each. */
  lemma MergeOfPartition(bodies: RuleName -> seq<Body>, a: set<RuleName>, b: set<RuleName>, c: set<RuleName>,
                         n: RuleName)
    requires a !! b !! c && (n in a + b + c || bodies(n) == [])
    ensures Bodies(MergeAll([ModuleOf(a, bodies), ModuleOf(b, bodies), ModuleOf(c, bodies)]), n) == bodies(n)
  {
    MergeAllBodies([ModuleOf(a, bodies), ModuleOf(b, bodies), ModuleOf(c, bodies)], n);
    ThreeInOrder(ModuleOf(a, bodies), ModuleOf(b, bodies), ModuleOf(c, bodies), n);
  }

  lemma {:induction false} MergedBodies(modules: seq<Program>, n: RuleName, b: Body)
    ensures b in Bodies(MergeAll(modules), n) <==> exists k :: 0 <= k < |modules| && b in Bodies(modules[k], n)
  {
    if modules != [] {
      MergedBodies(modules[1..], n, b);
      MergeBodies(modules[0], MergeAll(modules[1..]), n);
      forall k | 1 <= k < |modules| ensures modules[k] == modules[1..][k - 1] {}
      if b in Bodies(MergeAll(modules[1..]), n) {
        var k :| 0 <= k < |modules[1..]| && b in Bodies(modules[1..][k], n);
        assert b in Bodies(modules[k + 1], n);
      }
    }
  }

  /** The order in which files are loaded, and loading a file twice, do not matter. */
  lemma LoadOrderIrrelevant(loaded: seq<Program>, again: seq<Program>, rank: RuleName -> nat, n: RuleName, input: Input)
    requires Ranked(MergeAll(loaded), rank) && Ranked(MergeAll(again), rank)
    requires forall m :: m in loaded <==> m in again
    ensures Holds(MergeAll(loaded), rank, n, input) <==> Holds(MergeAll(again), rank, n, input)
  {
    forall m, b
      ensures b in Bodies(MergeAll(loaded), m) <==> b in Bodies(MergeAll(again), m)
    {
      MergedBodies(loaded, m, b);
      MergedBodies(again, m, b);
      if k :| 0 <= k < |loaded| && b in Bodies(loaded[k], m) {
        assert loaded[k] in again;
      }
      if k :| 0 <= k < |again| && b in Bodies(again[k], m) {
        assert again[k] in loaded;
      }
    }
    SameBodiesSameDecision(MergeAll(loaded), MergeAll(again), rank, n, input);
  }
}
