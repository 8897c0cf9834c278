/** The parts of Python's `str` that the modelled parsers rely on: stripping,
    splitting on a character or a substring, joining, prefix tests and
    character removal, each stated by what it returns rather than how. */
module Text {

  /** The characters for which Python's `str.isspace()` holds: the set that
      `str.strip()` with no argument removes. */
  const Whitespace: set<char> := {
    ' ', '\t', '\n', '\r', '\U{0B}', '\U{0C}', '\U{1C}', '\U{1D}', '\U{1E}', '\U{1F}',
    '\U{85}', '\U{A0}', '\U{1680}', '\U{2000}', '\U{2001}', '\U{2002}', '\U{2003}',
    '\U{2004}', '\U{2005}', '\U{2006}', '\U{2007}', '\U{2008}', '\U{2009}', '\U{200A}',
    '\U{2028}', '\U{2029}', '\U{202F}', '\U{205F}', '\U{3000}'
  }

  /** Every character of `s` is in `cs`. */
  predicate AllIn(s: string, cs: set<char>) {
    forall i :: 0 <= i < |s| ==> s[i] in cs
  }

  /** No character of `s` is in `cs`. */
  predicate NoneIn(s: string, cs: set<char>) {
    forall i :: 0 <= i < |s| ==> s[i] !in cs
  }

  /** Concatenation keeps characters out that both halves keep out. */
  lemma NoneInConcat(a: string, b: string, cs: set<char>)
    requires NoneIn(a, cs) && NoneIn(b, cs)
    ensures NoneIn(a + b, cs)
  {
    forall i | 0 <= i < |a + b|
      ensures (a + b)[i] !in cs
    {
      if i >= |a| {
        assert (a + b)[i] == b[i - |a|];
      }
    }
  }

  /** Python's `s.startswith(prefix)`. */
  predicate StartsWith(s: string, prefix: string) {
    |prefix| <= |s| && s[..|prefix|] == prefix
  }

  /** How many leading characters of `s` are in `cs`: what `lstrip` drops. */
  function Leading(s: string, cs: set<char>): (k: nat)
    ensures k <= |s|
    ensures forall i :: 0 <= i < k ==> s[i] in cs
    ensures k < |s| ==> s[k] !in cs
    decreases |s|
  {
    if |s| > 0 && s[0] in cs then 1 + Leading(s[1..], cs) else 0
  }

  /** How many trailing characters of `s` are in `cs`: what `rstrip` drops. */
  function Trailing(s: string, cs: set<char>): (k: nat)
    ensures k <= |s|
    ensures forall i :: |s| - k <= i < |s| ==> s[i] in cs
    ensures k < |s| ==> s[|s| - k - 1] !in cs
    decreases |s|
  {
    if |s| > 0 && s[|s| - 1] in cs then 1 + Trailing(s[..|s| - 1], cs) else 0
  }

  /** `Leading` is pinned down by its contract. */
  lemma LeadingAt(s: string, cs: set<char>, k: nat)
    requires k <= |s|
    requires forall i :: 0 <= i < k ==> s[i] in cs
    requires k < |s| ==> s[k] !in cs
    ensures Leading(s, cs) == k
  {
  }

  /** Python's `s.strip(cs)`: the slice of `s` left once leading and
      trailing characters in `cs` are dropped. What is dropped after it is
      all in `cs`; it is empty exactly when every character of `s` is in
      `cs`, and otherwise neither starts nor ends with a character of `cs`. */
  function Strip(s: string, cs: set<char>): (r: string)
    ensures Leading(s, cs) + |r| <= |s| && r == s[Leading(s, cs)..Leading(s, cs) + |r|]
    ensures AllIn(s[Leading(s, cs) + |r|..], cs)
    ensures r == [] <==> AllIn(s, cs)
    ensures r == [] || (r[0] !in cs && r[|r| - 1] !in cs)
  {
    var lead := Leading(s, cs);
    if lead == |s| then ""
    else s[lead..|s| - Trailing(s, cs)]
  }

  /** Characters of a stripped string all come from the original. */
  lemma StripKeepsNoneIn(s: string, cs: set<char>, bad: set<char>)
    requires NoneIn(s, bad)
    ensures NoneIn(Strip(s, cs), bad)
  {
    var r := Strip(s, cs);
    var i := Leading(s, cs);
    forall k | 0 <= k < |r|
      ensures r[k] !in bad
    {
      assert r[k] == s[i + k];
    }
  }

  /** Stripping removes padding made of `cs` characters and nothing else. */
  lemma StripPadded(p: string, m: string, q: string, cs: set<char>)
    requires AllIn(p, cs) && AllIn(q, cs)
    requires m == [] || (m[0] !in cs && m[|m| - 1] !in cs)
    ensures Strip(p + m + q, cs) == m
  {
    var s := p + m + q;
    if m == [] {
      assert AllIn(s, cs);
    } else {
      assert s[|p|] == m[0];
      assert Leading(s, cs) == |p|;
      assert s[|s| - |q| - 1] == m[|m| - 1];
      assert Trailing(s, cs) == |q|;
      assert s[|p|..|s| - |q|] == m;
    }
  }

  /** A string that neither starts nor ends with a `cs` character is left
      as it is by `strip`. */
  lemma StripUnpadded(m: string, cs: set<char>)
    requires m == [] || (m[0] !in cs && m[|m| - 1] !in cs)
    ensures Strip(m, cs) == m
  {
    StripPadded([], m, [], cs);
    assert [] + m + [] == m;
  }

  /** Index of the first character of `s` that is in `cs`, or `|s|`. */
  function FirstIn(s: string, cs: set<char>): (k: nat)
    ensures k <= |s|
    ensures k < |s| ==> s[k] in cs
    ensures forall i :: 0 <= i < k ==> s[i] !in cs
    decreases |s|
  {
    if |s| == 0 || s[0] in cs then 0 else 1 + FirstIn(s[1..], cs)
  }

  /** The text before the first character of `cs` holds none of them. */
  lemma BeforeFirstIn(s: string, cs: set<char>)
    ensures NoneIn(s[..FirstIn(s, cs)], cs)
  {
    var k := FirstIn(s, cs);
    forall i | 0 <= i < k
      ensures s[..k][i] !in cs
    {
      assert s[..k][i] == s[i];
    }
  }

  /** Python's `sep.join(parts)`. */
  function Join(parts: seq<string>, sep: string): string
    decreases |parts|
  {
    if |parts| == 0 then ""
    else if |parts| == 1 then parts[0]
    else parts[0] + sep + Join(parts[1..], sep)
  }

  /** Python's `s.split(c)` for a one-character separator: never empty, and
      no part contains the separator. */
  function Split(s: string, c: char): (parts: seq<string>)
    ensures |parts| >= 1
    ensures forall i :: 0 <= i < |parts| ==> NoneIn(parts[i], {c})
    decreases |s|
  {
    var k := FirstIn(s, {c});
    if k == |s| then [s] else [s[..k]] + Split(s[k + 1..], c)
  }

  /** Joining the parts of a split with the separator gives the string back. */
  lemma {:induction false} JoinSplit(s: string, c: char)
    ensures Join(Split(s, c), [c]) == s
    decreases |s|
  {
    var k := FirstIn(s, {c});
    if k < |s| {
      var rest := Split(s[k + 1..], c);
      JoinSplit(s[k + 1..], c);
      assert ([s[..k]] + rest)[1..] == rest;
      assert Join([s[..k]] + rest, [c]) == s[..k] + [c] + Join(rest, [c]);
      assert s == s[..k] + [c] + s[k + 1..];
    }
  }

  /** Splitting at a separator placed between two strings splits each of
      them independently. */
  lemma {:induction false} SplitConcat(a: string, b: string, c: char)
    ensures Split(a + [c] + b, c) == Split(a, c) + Split(b, c)
    decreases |a|
  {
    var k := FirstIn(a, {c});
    if k == |a| {
      SplitClearPrefix(a, b, c);
    } else {
      var a' := a[k + 1..];
      SplitCutBoth(a, b, c, k);
      SplitConcat(a', b, c);
      ConsAssoc(a[..k], Split(a', c), Split(b, c));
    }
  }

  /** The first separator of `a` is also the first one of `a + [c] + b`. */
  lemma SplitCutBoth(a: string, b: string, c: char, k: nat)
    requires k < |a| && FirstIn(a, {c}) == k
    ensures Split(a + [c] + b, c) == [a[..k]] + Split(a[k + 1..] + [c] + b, c)
    ensures Split(a, c) == [a[..k]] + Split(a[k + 1..], c)
  {
    var s := a + [c] + b;
    assert s[..k] == a[..k];
    assert s[k + 1..] == a[k + 1..] + [c] + b;
    SplitAt(s, c, k);
    SplitAt(a, c, k);
  }

  /** Regrouping a concatenation that starts with one element. */
  lemma ConsAssoc<T>(x: T, ys: seq<T>, zs: seq<T>)
    ensures [x] + (ys + zs) == ([x] + ys) + zs
  {
  }

  /** A prefix free of the separator comes out as one part. */
  lemma SplitClearPrefix(a: string, b: string, c: char)
    requires FirstIn(a, {c}) == |a|
    ensures Split(a + [c] + b, c) == [a] + Split(b, c)
    ensures Split(a, c) == [a]
  {
    var s := a + [c] + b;
    assert s[..|a|] == a;
    assert s[|a| + 1..] == b;
    SplitAt(s, c, |a|);
  }

  /** Split cuts at the first separator and carries on after it. */
  lemma SplitAt(s: string, c: char, k: nat)
    requires k < |s| && s[k] == c
    requires forall i :: 0 <= i < k ==> s[i] != c
    ensures Split(s, c) == [s[..k]] + Split(s[k + 1..], c)
  {
    FirstInAt(s, {c}, k);
  }

  /** `FirstIn` is pinned down by its contract. */
  lemma FirstInAt(s: string, cs: set<char>, k: nat)
    requires k <= |s|
    requires k < |s| ==> s[k] in cs
    requires forall i :: 0 <= i < k ==> s[i] !in cs
    ensures FirstIn(s, cs) == k
  {
  }

  /** Joining parts that do not contain the separator, then splitting,
      gives the parts back. */
  lemma {:induction false} SplitJoin(parts: seq<string>, c: char)
    requires |parts| >= 1
    requires forall i :: 0 <= i < |parts| ==> NoneIn(parts[i], {c})
    ensures Split(Join(parts, [c]), c) == parts
    decreases |parts|
  {
    if |parts| == 1 {
      SplitWhole(parts[0], c);
    } else {
      var rest := parts[1..];
      SplitJoin(rest, c);
      SplitJoinCons(parts[0], rest, c);
      assert parts == [parts[0]] + rest;
    }
  }

  /** One more part in front of parts that a split gives back. */
  lemma SplitJoinCons(x: string, rest: seq<string>, c: char)
    requires NoneIn(x, {c}) && |rest| >= 1
    requires Split(Join(rest, [c]), c) == rest
    ensures Split(Join([x] + rest, [c]), c) == [x] + rest
  {
    assert ([x] + rest)[1..] == rest;
    SplitConcat(x, Join(rest, [c]), c);
    SplitWhole(x, c);
  }

  /** A string without the separator is split into itself. */
  lemma SplitWhole(x: string, c: char)
    requires NoneIn(x, {c})
    ensures Split(x, c) == [x]
  {
    FirstInAt(x, {c}, |x|);
    assert x[..|x|] == x;
  }

  /** The substring `sep` starts at position `j` of `s`. */
  predicate OccursAt(s: string, sep: string, j: nat) {
    j + |sep| <= |s| && s[j..j + |sep|] == sep
  }

  /** Python's `s.find(sep)`, with `|s|` standing for "not found". */
  function Find(s: string, sep: string): (k: nat)
    requires |sep| > 0
    ensures k <= |s|
    ensures k < |s| ==> OccursAt(s, sep, k)
    ensures forall j :: 0 <= j < k ==> !OccursAt(s, sep, j)
    ensures k == |s| ==> forall j :: 0 <= j <= |s| ==> !OccursAt(s, sep, j)
    decreases |s|
  {
    if |s| < |sep| then |s|
    else if s[..|sep|] == sep then 0
    else
      var k := Find(s[1..], sep);
      OccursShift(s, sep);
      1 + k
  }

  /** An occurrence in the tail of `s` is an occurrence in `s`, one further on. */
  lemma OccursShift(s: string, sep: string)
    requires |s| > 0
    ensures forall j: nat :: 1 <= j ==> (OccursAt(s, sep, j) <==> OccursAt(s[1..], sep, j - 1))
  {
    forall j: nat | 1 <= j
      ensures OccursAt(s, sep, j) <==> OccursAt(s[1..], sep, j - 1)
    {
      if j + |sep| <= |s| {
        assert s[1..][j - 1..j - 1 + |sep|] == s[j..j + |sep|];
      }
    }
  }

  /** `Find` reports the first occurrence, whichever string holds it. */
  lemma FindFirst(s: string, sep: string, k: nat)
    requires |sep| > 0
    requires OccursAt(s, sep, k)
    requires forall j :: 0 <= j < k ==> !OccursAt(s, sep, j)
    ensures Find(s, sep) == k
  {
  }

  /** The text up to an occurrence of `sep` is the text before it, then `sep`. */
  lemma UpToOccurrence(s: string, sep: string, k: nat)
    requires OccursAt(s, sep, k)
    ensures s[..k] + sep == s[..k + |sep|]
  {
  }

  /** The text before the first occurrence of `sep`, at `k`, with `sep`
      appended, first holds `sep` where the appended copy starts. */
  lemma FirstPart(s: string, sep: string, k: nat)
    requires |sep| > 0
    requires OccursAt(s, sep, k)
    requires forall j :: 0 <= j < k ==> !OccursAt(s, sep, j)
    ensures Find(s[..k] + sep, sep) == k
  {
    UpToOccurrence(s, sep, k);
    OccursInPrefix(s, s[..k + |sep|], sep, k + |sep|);
    FindFirst(s[..k + |sep|], sep, k);
  }

  /** Python's `s.split(sep)` for a separator of one or more characters:
      joining the parts back with `sep` gives the original string, no part
      holds `sep`, and no part but the last runs into the `sep` after it. */
  function SplitOn(s: string, sep: string): (parts: seq<string>)
    requires |sep| > 0
    ensures |parts| >= 1
    ensures Join(parts, sep) == s
    ensures forall i :: 0 <= i < |parts| - 1 ==> Find(parts[i] + sep, sep) == |parts[i]|
    ensures Find(parts[|parts| - 1], sep) == |parts[|parts| - 1]|
    decreases |s|
  {
    var k := Find(s, sep);
    if k == |s| then [s]
    else
      var rest := SplitOn(s[k + |sep|..], sep);
      AroundOccurrence(s, sep, k);
      JoinCons(s[..k], rest, sep);
      FirstPart(s, sep, k);
      PartsCons(s[..k], rest, sep);
      [s[..k]] + rest
  }

  /** A string is what comes before an occurrence of `sep`, `sep`, and what
      comes after. */
  lemma AroundOccurrence(s: string, sep: string, k: nat)
    requires OccursAt(s, sep, k)
    ensures s == s[..k] + sep + s[k + |sep|..]
  {
  }

  /** Joining a part onto at least one more puts `sep` after it. */
  lemma JoinCons(x: string, rest: seq<string>, sep: string)
    requires |rest| >= 1
    ensures Join([x] + rest, sep) == x + sep + Join(rest, sep)
  {
    assert ([x] + rest)[1..] == rest;
  }

  /** A part that does not run into the `sep` after it, put before parts
      that do not either, keeps that true of every part but the last. */
  lemma PartsCons(x: string, rest: seq<string>, sep: string)
    requires |sep| > 0
    requires Find(x + sep, sep) == |x|
    requires forall i :: 0 <= i < |rest| - 1 ==> Find(rest[i] + sep, sep) == |rest[i]|
    ensures forall i :: 0 <= i < |rest| ==> Find(([x] + rest)[i] + sep, sep) == |([x] + rest)[i]|
  {
    forall i | 0 <= i < |rest|
      ensures Find(([x] + rest)[i] + sep, sep) == |([x] + rest)[i]|
    {
      if i > 0 {
        assert ([x] + rest)[i] == rest[i - 1];
      }
    }
  }

  /** A prefix of `s` holds `sep` wherever `s` does, as far as it reaches. */
  lemma OccursInPrefix(s: string, p: string, sep: string, n: nat)
    requires n <= |s| && p == s[..n]
    ensures forall j: nat :: j + |sep| <= n ==> (OccursAt(p, sep, j) <==> OccursAt(s, sep, j))
  {
    forall j: nat | j + |sep| <= n
      ensures OccursAt(p, sep, j) <==> OccursAt(s, sep, j)
    {
      assert p[j..j + |sep|] == s[j..j + |sep|];
    }
  }

  /** A part that does not run into the `sep` after it still ends at that
      `sep` whatever follows. */
  lemma FindAfterPart(x: string, sep: string, t: string)
    requires |sep| > 0
    requires Find(x + sep, sep) == |x|
    ensures Find(x + sep + t, sep) == |x|
  {
    var s := x + sep + t;
    assert x + sep == s[..|x| + |sep|];
    OccursInPrefix(s, x + sep, sep, |x| + |sep|);
    FindFirst(s, sep, |x|);
  }

  /** A join of parts that do not run into `sep`, then `sep` and the rest. */
  lemma SplitOnCons(x: string, sep: string, t: string)
    requires |sep| > 0
    requires Find(x + sep, sep) == |x|
    ensures SplitOn(x + sep + t, sep) == [x] + SplitOn(t, sep)
  {
    var s := x + sep + t;
    FindAfterPart(x, sep, t);
    assert s[..|x|] == x;
    assert s[|x| + |sep|..] == t;
  }

  /** Two parts that split apart at the `sep` between them. */
  lemma SplitOnTwo(a: string, sep: string, b: string)
    requires |sep| > 0
    requires Find(a + sep, sep) == |a| && Find(b, sep) == |b|
    ensures SplitOn(a + sep + b, sep) == [a, b]
  {
    SplitOnCons(a, sep, b);
  }

  /** Splitting undoes joining: parts that do not hold `sep`, and of which
      none but the last runs into the `sep` after it, come back from
      splitting their join. With `SplitOn`'s own contract, these are exactly
      the lists of parts that splitting can return. */
  lemma {:induction false} SplitOnJoin(parts: seq<string>, sep: string)
    requires |sep| > 0 && |parts| >= 1
    requires forall i :: 0 <= i < |parts| - 1 ==> Find(parts[i] + sep, sep) == |parts[i]|
    requires Find(parts[|parts| - 1], sep) == |parts[|parts| - 1]|
    ensures SplitOn(Join(parts, sep), sep) == parts
    decreases |parts|
  {
    if |parts| == 1 {
      assert Join(parts, sep) == parts[0];
    } else {
      var rest := parts[1..];
      assert parts == [parts[0]] + rest;
      JoinCons(parts[0], rest, sep);
      SplitOnJoin(rest, sep);
      SplitOnCons(parts[0], sep, Join(rest, sep));
    }
  }

  /** Python's `s.replace(c, '')`: every `c` removed, every other character
      kept with its multiplicity. */
  function Remove(s: string, c: char): (r: string)
    ensures c !in r
    ensures multiset(r) == multiset(s)[c := 0]
    decreases |s|
  {
    if |s| == 0 then ""
    else
      var rest := Remove(s[1..], c);
      assert s == [s[0]] + s[1..];
      if s[0] == c then rest else [s[0]] + rest
  }

  /** Removal keeps the order of what it keeps: it works piecewise, one
      character at a time. */
  lemma {:induction false} RemoveConcat(a: string, b: string, c: char)
    ensures Remove(a + b, c) == Remove(a, c) + Remove(b, c)
    decreases |a|
  {
    if |a| > 0 {
      assert (a + b)[1..] == a[1..] + b;
      RemoveConcat(a[1..], b, c);
    } else {
      assert a + b == b;
    }
  }

  /** Removing `c` from one character drops it when it is `c` and keeps it
      otherwise. */
  lemma RemoveOne(x: char, c: char)
    ensures Remove([x], c) == if x == c then "" else [x]
  {
  }
}
