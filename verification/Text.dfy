/** String facts shared by paths, identifiers and addresses. A string is the sequence of its bytes. */
module Text {

  /** The fields of `s` between occurrences of `sep`; a string without `sep` is one field. */
  function Split(s: string, sep: char): (fields: seq<string>)
    ensures |fields| >= 1
  {
    if s == "" then [""]
    else if s[0] == sep then [""] + Split(s[1..], sep)
    else
      var rest := Split(s[1..], sep);
      [[s[0]] + rest[0]] + rest[1..]
  }

  function Join(fields: seq<string>, sep: char): string
    requires |fields| >= 1
  {
    if |fields| == 1 then fields[0] else fields[0] + [sep] + Join(fields[1..], sep)
  }

  lemma FirstFieldGrows(rest: seq<string>, fields: seq<string>, c: string)
    requires |rest| >= 1
    ensures [c + (rest + fields)[0]] + (rest + fields)[1..] == ([c + rest[0]] + rest[1..]) + fields
  {
    assert (rest + fields)[1..] == rest[1..] + fields;
  }

  lemma {:induction false} SplitOfConcat(a: string, b: string, sep: char)
    ensures Split(a + [sep] + b, sep) == Split(a, sep) + Split(b, sep)
  {
    var s, fields := a + [sep] + b, Split(b, sep);
    if a == "" {
      assert s[0] == sep && s[1..] == b;
    } else {
      var rest := Split(a[1..], sep);
      assert s[0] == a[0] && s[1..] == a[1..] + [sep] + b;
      SplitOfConcat(a[1..], b, sep);
      if a[0] == sep {
        assert [""] + (rest + fields) == ([""] + rest) + fields;
      } else {
        FirstFieldGrows(rest, fields, [a[0]]);
      }
    }
  }

  /** Text without the separator only lengthens the first field of what follows it. */
  lemma {:induction false} SplitAfterPlain(w: string, x: string, sep: char)
    requires sep !in w
    ensures Split(w + x, sep) == [w + Split(x, sep)[0]] + Split(x, sep)[1..]
  {
    var fields := Split(x, sep);
    if w == "" {
      assert w + x == x && w + fields[0] == fields[0];
    } else {
      assert (w + x)[1..] == w[1..] + x;
      SplitAfterPlain(w[1..], x, sep);
      assert [w[0]] + (w[1..] + fields[0]) == w + fields[0];
    }
  }

  lemma SplitPlain(w: string, sep: char)
    requires sep !in w
    ensures Split(w, sep) == [w]
  {
    SplitAfterPlain(w, "", sep);
    assert w + "" == w;
  }

  /** A plain field in front. */
  lemma SplitPlainHead(w: string, s: string, sep: char)
    requires sep !in w
    ensures Split(w + [sep] + s, sep) == [w] + Split(s, sep)
  {
    SplitOfConcat(w, s, sep);
    SplitPlain(w, sep);
  }

  lemma {:induction false} JoinOfSplit(s: string, sep: char)
    ensures Join(Split(s, sep), sep) == s
  {
    if s != "" {
      JoinOfSplit(s[1..], sep);
      var rest := Split(s[1..], sep);
      if s[0] == sep {
        assert Split(s, sep)[1..] == rest;
      } else {
        assert Split(s, sep)[1..] == rest[1..];
        assert s == [s[0]] + s[1..];
      }
    }
  }

  lemma {:induction false} FieldsArePlain(s: string, sep: char)
    ensures forall i :: 0 <= i < |Split(s, sep)| ==> sep !in Split(s, sep)[i]
  {
    if s != "" {
      FieldsArePlain(s[1..], sep);
    }
  }

  lemma {:induction false} SplitOfJoin(fields: seq<string>, sep: char)
    requires |fields| >= 1
    requires forall i :: 0 <= i < |fields| ==> sep !in fields[i]
    ensures Split(Join(fields, sep), sep) == fields
  {
    if |fields| == 1 {
      SplitPlain(fields[0], sep);
    } else {
      SplitOfJoin(fields[1..], sep);
      SplitOfConcat(fields[0], Join(fields[1..], sep), sep);
      SplitPlain(fields[0], sep);
    }
  }

  /** Two prefixes of one string are prefixes of one another. */
  lemma PrefixesCompare(p: string, q: string, s: string)
    requires p <= s && q <= s
    ensures if |p| <= |q| then p <= q else q <= p
  {
    assert p == s[..|p|] && q == s[..|q|];
  }

  predicate Contains(s: string, sub: string) {
    exists i :: 0 <= i <= |s| && sub <= s[i..]
  }

  lemma ContainsItsBytes(s: string, sub: string, c: char)
    requires Contains(s, sub) && c in sub
    ensures c in s
  {
    var i :| 0 <= i <= |s| && sub <= s[i..];
    var k :| 0 <= k < |sub| && sub[k] == c;
    assert s[i + k] == s[i..][k] == c;
  }
}
