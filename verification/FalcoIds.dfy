/** Matching a Falco alert to an agent (daemon/internal/api/server.go, handleFalcoWebhook). */
module FalcoIds {
  import opened Identity

  /** strings.ReplaceAll(s, "_", "-") */
  function Normalize(s: string): (r: string)
    ensures |r| == |s|
    ensures forall i :: 0 <= i < |s| ==> r[i] == if s[i] == '_' then '-' else s[i]
  {
    if s == "" then "" else [if s[0] == '_' then '-' else s[0]] + Normalize(s[1..])
  }

  /** `text` is `id` with some of its hyphens, possibly none or all, written as underscores. */
  predicate Renders(text: string, id: string) {
    |text| == |id| && forall i :: 0 <= i < |id| ==> text[i] == id[i] || (id[i] == '-' && text[i] == '_')
  }

  /** Upper-casing of ASCII letters, as strings.ToUpper does it on them. */
  function Upper(s: string): (r: string)
    ensures |r| == |s|
  {
    if s == "" then "" else [if 'a' <= s[0] <= 'z' then (s[0] as int - 32) as char else s[0]] + Upper(s[1..])
  }

  /** The word `critical`, each letter in either case. */
  predicate IsCritical(priority: string) {
    |priority| == 8 && forall i :: 0 <= i < 8 ==> priority[i] == "CRITICAL"[i] || priority[i] == "critical"[i]
  }

  lemma {:induction false} UpperByLetter(s: string, i: nat)
    requires i < |s|
    ensures Upper(s)[i] == if 'a' <= s[i] <= 'z' then (s[i] as int - 32) as char else s[i]
    decreases |s|
  {
    if i > 0 {
      UpperByLetter(s[1..], i - 1);
    }
  }

  /** The comparison the handler makes finds exactly these spellings. */
  lemma UpperFindsCritical(priority: string)
    ensures Upper(priority) == "CRITICAL" <==> IsCritical(priority)
  {
    forall i | 0 <= i < |priority| && i < 8
      ensures Upper(priority)[i] == "CRITICAL"[i]
         <==> priority[i] == "CRITICAL"[i] || priority[i] == "critical"[i]
    {
      UpperByLetter(priority, i);
    }
  }

  /** Normalising finds the valid agent whose id was rendered, and no other one. */
  lemma NormalizeFindsTheAgent(text: string, id: string)
    requires ValidId(id)
    ensures Normalize(text) == id <==> Renders(text, id)
  {
    var n := Normalize(text);
    ValidIdIsPlain(id);
    if n == id {
      forall i | 0 <= i < |id|
        ensures text[i] == id[i] || (id[i] == '-' && text[i] == '_')
      {
        assert id[i] == if text[i] == '_' then '-' else text[i];
      }
    }
    if Renders(text, id) {
      forall i | 0 <= i < |id|
        ensures n[i] == id[i]
      {
        assert id[i] != '_';
      }
    }
  }

  /** An alert rendered from one valid id names that agent's unit and no other valid id's unit. */
  lemma AlertTargetsOneUnit(text: string, id: string, other: string)
    requires ValidId(id) && ValidId(other) && Renders(text, id)
    ensures SystemdUnitName(Normalize(text)) == SystemdUnitName(other) <==> other == id
  {
    NormalizeFindsTheAgent(text, id);
    if SystemdUnitName(Normalize(text)) == SystemdUnitName(other) {
      UnitNameInjective(id, other);
    }
  }
}
