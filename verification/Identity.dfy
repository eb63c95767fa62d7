/** Agent identifiers and the names derived from them (daemon/internal/agent/identity.go). */
module Identity {
  import opened Wrappers
  import opened Text

  // ----- The pattern language used by the identifier check -----

  datatype Regex =
    | Class(chars: set<char>)
    | Cat(first: Regex, second: Regex)
    | Repeat(item: Regex, least: nat, most: nat)

  /** Anchored match: all of `s` is derived from `r`. */
  predicate Matches(r: Regex, s: string)
    decreases r, 0
  {
    match r
    case Class(chars) => |s| == 1 && s[0] in chars
    case Cat(first, second) => exists i :: 0 <= i <= |s| && Matches(first, s[..i]) && Matches(second, s[i..])
    case Repeat(item, least, most) => MatchesTimes(item, least, most, s)
  }

  /** Some number of copies between `least` and `most`, taken off the front one at a time. */
  predicate MatchesTimes(item: Regex, least: nat, most: nat, s: string)
    decreases item, 1 + most
  {
    || (least == 0 && s == "")
    || (most > 0 && exists i :: 0 <= i <= |s| && Matches(item, s[..i])
                                && MatchesTimes(item, if least == 0 then 0 else least - 1, most - 1, s[i..]))
  }

  const ALNUM := set c: char | 'a' <= c <= 'z' || '0' <= c <= '9'
  const ALNUM_HYPHEN := ALNUM + {'-'}

  /** ^[a-z0-9][a-z0-9\-]{0,62}[a-z0-9]$ */
  const VALID_AGENT_ID := Cat(Class(ALNUM), Cat(Repeat(Class(ALNUM_HYPHEN), 0, 62), Class(ALNUM)))

  ghost predicate AllIn(s: string, chars: set<char>) {
    forall i :: 0 <= i < |s| ==> s[i] in chars
  }

  lemma {:induction false} RepeatedClass(chars: set<char>, least: nat, most: nat, s: string)
    ensures MatchesTimes(Class(chars), least, most, s) <==> least <= |s| <= most && AllIn(s, chars)
    decreases most
  {
    if most > 0 {
      var fewer := if least == 0 then 0 else least - 1;
      forall i | 0 <= i <= |s| {
        RepeatedClass(chars, fewer, most - 1, s[i..]);
      }
      if least <= |s| <= most && AllIn(s, chars) && s != "" {
        assert Matches(Class(chars), s[..1]);
        assert MatchesTimes(Class(chars), fewer, most - 1, s[1..]);
      }
      forall i | 0 <= i <= |s| && Matches(Class(chars), s[..i]) && MatchesTimes(Class(chars), fewer, most - 1, s[i..])
        ensures least <= |s| <= most && AllIn(s, chars)
      {
        assert i == 1 && s == s[..1] + s[1..];
        assert forall k :: 1 <= k < |s| ==> s[k] == s[1..][k - 1];
      }
    }
  }

  // ----- ValidateID -----

  datatype IdError = BadLength(length: nat) | BadPattern | HasSeparator

  function ValidateID(id: string): Result<(), IdError> {
    if |id| < 2 || |id| > 64 then Err(BadLength(|id|))
    else if !Matches(VALID_AGENT_ID, id) then Err(BadPattern)
    else if Contains(id, "..") || Contains(id, "/") then Err(HasSeparator)
    else Ok(())
  }

  /** What an identifier is, said without the pattern: 2 to 64 of [a-z0-9-] with alphanumeric ends. */
  predicate ValidId(id: string) {
    && 2 <= |id| <= 64
    && (forall i :: 0 <= i < |id| ==> id[i] in ALNUM_HYPHEN)
    && id[0] in ALNUM
    && id[|id| - 1] in ALNUM
  }

  /** One of the first class, up to `most` of the middle one, one of the last. */
  function ThreeParts(first: set<char>, middle: set<char>, most: nat, last: set<char>): Regex {
    Cat(Class(first), Cat(Repeat(Class(middle), 0, most), Class(last)))
  }

  ghost predicate InThreeParts(first: set<char>, middle: set<char>, most: nat, last: set<char>, s: string) {
    2 <= |s| <= most + 2 && s[0] in first && AllIn(s[1..|s| - 1], middle) && s[|s| - 1] in last
  }

  lemma ThreePartsAccept(first: set<char>, middle: set<char>, most: nat, last: set<char>, s: string)
    requires InThreeParts(first, middle, most, last, s)
    ensures Matches(ThreeParts(first, middle, most, last), s)
  {
    var inner := Repeat(Class(middle), 0, most);
    var rest := s[1..];
    var k := |rest| - 1;
    assert rest[..k] == s[1..|s| - 1];
    RepeatedClass(middle, 0, most, rest[..k]);
    assert Matches(inner, rest[..k]) && Matches(Class(last), rest[k..]);
    assert Matches(Cat(inner, Class(last)), rest);
    assert Matches(Class(first), s[..1]);
  }

  lemma ThreePartsOnly(first: set<char>, middle: set<char>, most: nat, last: set<char>, s: string)
    requires Matches(ThreeParts(first, middle, most, last), s)
    ensures InThreeParts(first, middle, most, last, s)
  {
    var inner := Repeat(Class(middle), 0, most);
    var i :| 0 <= i <= |s| && Matches(Class(first), s[..i]) && Matches(Cat(inner, Class(last)), s[i..]);
    var rest := s[i..];
    var k :| 0 <= k <= |rest| && Matches(inner, rest[..k]) && Matches(Class(last), rest[k..]);
    RepeatedClass(middle, 0, most, rest[..k]);
    assert rest[..k] == s[1..|s| - 1];
  }

  /** The pattern, read position by position. */
  lemma PatternMeaning(id: string)
    ensures Matches(VALID_AGENT_ID, id) <==> ValidId(id)
    ensures ValidId(id) <==>
      && 2 <= |id| <= 64
      && (forall i :: 0 <= i < |id| ==> 'a' <= id[i] <= 'z' || '0' <= id[i] <= '9' || id[i] == '-')
      && id[0] != '-' && id[|id| - 1] != '-'
  {
    if Matches(VALID_AGENT_ID, id) {
      ThreePartsOnly(ALNUM, ALNUM_HYPHEN, 62, ALNUM, id);
    }
    assert ALNUM <= ALNUM_HYPHEN;
    if ValidId(id) {
      ThreePartsAccept(ALNUM, ALNUM_HYPHEN, 62, ALNUM, id);
    }
    if 2 <= |id| && AllIn(id[1..|id| - 1], ALNUM_HYPHEN) {
      assert forall i :: 1 <= i < |id| - 1 ==> id[i] == id[1..|id| - 1][i - 1];
    }
  }

  /** The check decides ValidId, its three errors are told apart exactly, and the separator branch is dead. */
  lemma ValidateIDDecides(id: string)
    ensures ValidateID(id).Ok? <==> ValidId(id)
    ensures ValidateID(id) == Err(BadLength(|id|)) <==> !(2 <= |id| <= 64)
    ensures ValidateID(id) == Err(BadPattern) <==> 2 <= |id| <= 64 && !ValidId(id)
    ensures ValidateID(id) != Err(HasSeparator)
  {
    PatternMeaning(id);
    if Contains(id, "..") {
      ContainsItsBytes(id, "..", '.');
    }
    if Contains(id, "/") {
      ContainsItsBytes(id, "/", '/');
    }
  }

  lemma ValidIdIsPlain(id: string)
    requires ValidId(id)
    ensures '/' !in id && '.' !in id && '_' !in id
    ensures id != "" && id != "." && id != ".."
  {
  }

  // ----- Names derived from an identifier -----

  function WorkspacePath(root: string, id: string): string {
    root + "/" + id + "/workspace"
  }

  function SystemdUnitName(id: string): string {
    "atomic-sandbox-" + id + ".service"
  }

  lemma UnitNameInjective(a: string, b: string)
    requires SystemdUnitName(a) == SystemdUnitName(b)
    ensures a == b
  {
    var ua, ub := SystemdUnitName(a), SystemdUnitName(b);
    assert a == ua[15..|ua| - 8] && b == ub[15..|ub| - 8];
  }

  /** A string begins with at most one agent's workspace path. */
  lemma WorkspacesNeverOverlap(root: string, a: string, b: string, resource: string)
    requires ValidId(a) && ValidId(b)
    requires WorkspacePath(root, a) <= resource && WorkspacePath(root, b) <= resource
    ensures a == b
  {
    FieldAfterRoot(root, a, resource);
    FieldAfterRoot(root, b, resource);
  }

  lemma FieldAfterRoot(root: string, id: string, resource: string)
    requires ValidId(id) && WorkspacePath(root, id) <= resource
    ensures |resource| > |root| && Split(resource[|root| + 1..], '/')[0] == id
  {
    ValidIdIsPlain(id);
    var rest := resource[|root| + 1 + |id| + 1..];
    assert resource == WorkspacePath(root, id) + resource[|WorkspacePath(root, id)|..];
    assert resource[|root| + 1..] == id + "/" + rest;
    SplitOfConcat(id, rest, '/');
    SplitPlain(id, '/');
  }
}
