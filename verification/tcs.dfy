/** `getWhtTcs` in hcam_widgets/tcs.py: the William Herschel Telescope's
    parameter notice board is listed line by line, the `TCS.` lines are
    parsed into a dictionary, and the pointing is read from four of its
    entries. The ssh command that produces the listing, the float parser
    and the sky-coordinate parser are not modelled: the listing's lines and
    the two parsers are parameters. */
module Tcs {
  import opened Wrappers
  import opened Text

  const Prefix: string := "TCS."
  const Arrow: string := " -> "

  /** The characters the regular expression's `\w` matches, restricted to
      ASCII. */
  predicate IsWordChar(c: char) {
    ('a' <= c <= 'z') || ('A' <= c <= 'Z') || ('0' <= c <= '9') || c == '_'
  }

  /** Every character of `s` is a word character. */
  predicate AllWord(s: string) {
    forall i :: 0 <= i < |s| ==> IsWordChar(s[i])
  }

  /** The length of the longest run of word characters at the start of `s`:
      what a greedy `(\w*)` captures. */
  function WordRun(s: string): (k: nat)
    ensures k <= |s|
    ensures AllWord(s[..k])
    ensures k < |s| ==> !IsWordChar(s[k])
    decreases |s|
  {
    if |s| > 0 && IsWordChar(s[0]) then
      var k := 1 + WordRun(s[1..]);
      assert forall i :: 1 <= i < k ==> s[..k][i] == s[1..][..k - 1][i - 1];
      k
    else 0
  }

  /** The three groups of `TCS\.(\w*) -> (\w*) (.*)`. */
  datatype Groups = Groups(name: string, kind: string, value: string)

  /** The text a match covers: the prefix, the name, the arrow, the type
      word, a space and the value. */
  function Shape(g: Groups): string {
    Prefix + g.name + Arrow + g.kind + " " + g.value
  }

  /** `re.match(r'TCS\.(\w*) -> (\w*) (.*)', line)`. Since no separator of
      the pattern is a word character, each `\w*` can only stop at the end of
      its run, so the match, when there is one, is the only one. */
  function MatchLine(line: string): (r: Option<Groups>)
    ensures r.Some? ==> AllWord(r.value.name) && AllWord(r.value.kind)
    ensures r.Some? ==> NoneIn(r.value.value, {'\n'})
    ensures r.Some? ==> StartsWith(line, Shape(r.value))
  {
    if !StartsWith(line, Prefix) then None
    else
      var rest := line[|Prefix|..];
      var n := WordRun(rest);
      var after := rest[n..];
      if !StartsWith(after, Arrow) then None
      else
        var t := after[|Arrow|..];
        var m := WordRun(t);
        if m == |t| || t[m] != ' ' then None
        else
          var tail := t[m + 1..];
          var e := FirstIn(tail, {'\n'});
          BeforeFirstIn(tail, {'\n'});
          var g := Groups(rest[..n], t[..m], tail[..e]);
          MatchShape(line, rest, after, t, tail, g);
          Some(g)
  }

  /** `s` starts with `a` and then `b`. */
  lemma PrefixConcat(s: string, a: string, b: string)
    requires StartsWith(s, a) && StartsWith(s[|a|..], b)
    ensures StartsWith(s, a + b)
  {
    assert s[..|a + b|] == s[..|a|] + s[|a|..][..|b|];
  }

  /** The pieces `MatchLine` cuts out of a line lie in it in pattern order. */
  lemma MatchShape(line: string, rest: string, after: string, t: string, tail: string, g: Groups)
    requires StartsWith(line, Prefix) && rest == line[|Prefix|..]
    requires |g.name| <= |rest| && g.name == rest[..|g.name|] && after == rest[|g.name|..]
    requires StartsWith(after, Arrow) && t == after[|Arrow|..]
    requires |g.kind| < |t| && g.kind == t[..|g.kind|] && t[|g.kind|] == ' '
    requires tail == t[|g.kind| + 1..] && StartsWith(tail, g.value)
    ensures StartsWith(line, Shape(g))
  {
    var sp: string := " ";
    assert t[|g.kind|..][|sp|..] == tail;
    PrefixConcat(t[|g.kind|..], sp, g.value);
    assert t[|g.kind|..] == t[|g.kind|..];
    PrefixConcat(t, g.kind, sp + g.value);
    PrefixConcat(after, Arrow, g.kind + (sp + g.value));
    PrefixConcat(rest, g.name, Arrow + (g.kind + (sp + g.value)));
    PrefixConcat(line, Prefix, g.name + (Arrow + (g.kind + (sp + g.value))));
    ShapeAssoc(g);
  }

  /** `Shape` written with its concatenations grouped to the right. */
  lemma ShapeAssoc(g: Groups)
    ensures Shape(g) == Prefix + (g.name + (Arrow + (g.kind + (" " + g.value))))
  {
  }

  /** `WordRun` is pinned down by its contract. */
  lemma WordRunAt(s: string, k: nat)
    requires k <= |s| && AllWord(s[..k])
    requires k < |s| ==> !IsWordChar(s[k])
    ensures WordRun(s) == k
    decreases |s|
  {
    if k > 0 {
      assert s[..k][0] == s[0];
      assert s[1..][..k - 1] == s[..k][1..];
      WordRunAt(s[1..], k - 1);
    } else if |s| > 0 {
      assert !IsWordChar(s[0]);
    }
  }

  /** How `MatchLine` reads a line once its runs and cuts are known. */
  lemma MatchAt(line: string, rest: string, after: string, t: string, tl: string, n: nat, m: nat, e: nat)
    requires StartsWith(line, Prefix) && rest == line[|Prefix|..]
    requires WordRun(rest) == n && after == rest[n..]
    requires StartsWith(after, Arrow) && t == after[|Arrow|..]
    requires WordRun(t) == m && m < |t| && t[m] == ' ' && tl == t[m + 1..]
    requires FirstIn(tl, {'\n'}) == e
    ensures MatchLine(line) == Some(Groups(rest[..n], t[..m], tl[..e]))
  {
  }

  /** The two halves of a concatenation, cut where they meet. */
  lemma Cut(a: string, b: string)
    ensures (a + b)[..|a|] == a && (a + b)[|a|..] == b
  {
  }

  /** A run of word characters followed by a non-word character is what
      `(\w*)` captures, and the rest starts after it. */
  lemma RunThenStop(word: string, rest: string)
    requires AllWord(word) && |rest| > 0 && !IsWordChar(rest[0])
    ensures WordRun(word + rest) == |word|
    ensures (word + rest)[..|word|] == word && (word + rest)[|word|..] == rest
  {
    Cut(word, rest);
    WordRunAt(word + rest, |word|);
  }

  /** A value free of line breaks, then the end or a line break: `(.*)`
      captures exactly the value. */
  lemma ValueThenBreak(value: string, tail: string)
    requires NoneIn(value, {'\n'}) && (tail == [] || tail[0] == '\n')
    ensures FirstIn(value + tail, {'\n'}) == |value|
    ensures (value + tail)[..|value|] == value
  {
    Cut(value, tail);
    FirstInAt(value + tail, {'\n'}, |value|);
  }

  /** The space after the type word, cut off. */
  lemma AfterSpace(kind: string, tl: string)
    ensures (kind + (" " + tl))[|kind|] == ' '
    ensures (kind + (" " + tl))[|kind| + 1..] == tl
  {
    Cut(kind, " " + tl);
  }

  /** Every line of the pattern's shape matches, with the groups it was
      built from: the match is unique. */
  lemma MatchBuilt(g: Groups, tail: string)
    requires AllWord(g.name) && AllWord(g.kind) && NoneIn(g.value, {'\n'})
    requires tail == [] || tail[0] == '\n'
    ensures MatchLine(Shape(g) + tail) == Some(g)
  {
    var tl := g.value + tail;
    var t := g.kind + (" " + tl);
    var after := Arrow + t;
    var rest := g.name + after;
    ShapeTail(g, tail);
    BuiltFront(g.name, t);
    BuiltBack(g, tail);
    MatchAt(Prefix + rest, rest, after, t, tl, |g.name|, |g.kind|, |g.value|);
  }

  /** The prefix, the name and the arrow of a built line, as `MatchLine`
      finds them. */
  lemma BuiltFront(name: string, t: string)
    requires AllWord(name)
    ensures var rest := name + (Arrow + t);
      && StartsWith(Prefix + rest, Prefix) && (Prefix + rest)[|Prefix|..] == rest
      && WordRun(rest) == |name| && rest[|name|..] == Arrow + t
      && StartsWith(Arrow + t, Arrow) && (Arrow + t)[|Arrow|..] == t
  {
    Cut(Prefix, name + (Arrow + t));
    RunThenStop(name, Arrow + t);
    Cut(Arrow, t);
  }

  /** The type word, the space and the value of a built line, as
      `MatchLine` finds them. */
  lemma BuiltBack(g: Groups, tail: string)
    requires AllWord(g.kind) && NoneIn(g.value, {'\n'})
    requires tail == [] || tail[0] == '\n'
    ensures var tl := g.value + tail;
      var t := g.kind + (" " + tl);
      && WordRun(t) == |g.kind| && |g.kind| < |t| && t[|g.kind|] == ' ' && t[|g.kind| + 1..] == tl
      && FirstIn(tl, {'\n'}) == |g.value| && tl[..|g.value|] == g.value && t[..|g.kind|] == g.kind
  {
    var tl := g.value + tail;
    AfterSpace(g.kind, tl);
    RunThenStop(g.kind, " " + tl);
    ValueThenBreak(g.value, tail);
  }

  /** A shaped line with a tail, grouped to the right. */
  lemma ShapeTail(g: Groups, tail: string)
    ensures Shape(g) + tail == Prefix + (g.name + (Arrow + (g.kind + (" " + (g.value + tail)))))
  {
  }

  /** A dictionary value: a number when `float()` accepts the text, the
      text otherwise. */
  datatype TcsValue = Num(x: real) | Text(s: string)

  /** `value.replace('{', '').replace('}', '')` followed by the attempt to
      convert to a float; `parseFloat` is `float()` on text, `None` where it
      raises a ValueError. */
  function Convert(raw: string, parseFloat: string -> Option<real>): (v: TcsValue)
    ensures var clean := Remove(Remove(raw, '{'), '}');
      && '{' !in clean && '}' !in clean
      && multiset(clean) == multiset(raw)['{' := 0]['}' := 0]
      && (v.Num? <==> parseFloat(clean).Some?)
      && (v.Num? ==> v.x == parseFloat(clean).value)
      && (v.Text? ==> v.s == clean)
  {
    var inner := Remove(raw, '{');
    var clean := Remove(inner, '}');
    assert multiset(inner)['{'] == 0;
    assert multiset(clean)['{'] == 0;
    if parseFloat(clean).Some? then Num(parseFloat(clean).value) else Text(clean)
  }

  /** The dictionary entry one listing line contributes, if any: none for a
      line that does not start with `TCS.` or does not match the pattern. */
  function ParseLine(line: string, parseFloat: string -> Option<real>): (r: Option<(string, TcsValue)>)
    ensures !StartsWith(line, Prefix) ==> r == None
    ensures r.Some? <==> MatchLine(line).Some?
    ensures r.Some? ==> r.value.0 == MatchLine(line).value.name
  {
    match MatchLine(line)
    case None => None
    case Some(g) => Some((g.name, Convert(g.value, parseFloat)))
  }

  /** The dictionary a sequence of lines builds when each line may set one
      entry: a later line overrides an earlier one with the same name. */
  function Dictionary<V>(lines: seq<string>, entry: string -> Option<(string, V)>): map<string, V>
    decreases |lines|
  {
    if |lines| == 0 then map[]
    else
      var data := Dictionary(lines[..|lines| - 1], entry);
      match entry(lines[|lines| - 1])
      case None => data
      case Some(kv) => data[kv.0 := kv.1]
  }

  /** Line `i` sets the entry named `k`. */
  predicate Sets<V>(lines: seq<string>, entry: string -> Option<(string, V)>, i: int, k: string)
    requires 0 <= i < |lines|
  {
    entry(lines[i]).Some? && entry(lines[i]).value.0 == k
  }

  /** A line that sets nothing leaves the dictionary as it was. */
  lemma SilentLineIgnored<V>(lines: seq<string>, line: string, entry: string -> Option<(string, V)>)
    requires entry(line).None?
    ensures Dictionary(lines + [line], entry) == Dictionary(lines, entry)
  {
    assert (lines + [line])[..|lines|] == lines;
  }

  /** A line of the listing without its last line sets what it sets in
      the whole listing. */
  lemma SetsInFront<V>(lines: seq<string>, entry: string -> Option<(string, V)>, k: string)
    requires |lines| > 0
    ensures forall i :: 0 <= i < |lines| - 1 ==>
      (Sets(lines[..|lines| - 1], entry, i, k) <==> Sets(lines, entry, i, k))
  {
    var front := lines[..|lines| - 1];
    forall i | 0 <= i < |front|
      ensures Sets(front, entry, i, k) <==> Sets(lines, entry, i, k)
    {
      assert front[i] == lines[i];
    }
  }

  /** The dictionary holds exactly the names some line sets. */
  lemma {:induction false} KeysFromLines<V>(lines: seq<string>, entry: string -> Option<(string, V)>, k: string)
    ensures k in Dictionary(lines, entry) <==> exists i :: 0 <= i < |lines| && Sets(lines, entry, i, k)
    decreases |lines|
  {
    if |lines| > 0 {
      var front := lines[..|lines| - 1];
      KeysFromLines(front, entry, k);
      SetsInFront(lines, entry, k);
      if k in Dictionary(front, entry) {
        var i :| 0 <= i < |front| && Sets(front, entry, i, k);
        assert Sets(lines, entry, i, k);
      }
      if Sets(lines, entry, |lines| - 1, k) {
        assert k in Dictionary(lines, entry);
      }
      if exists i :: 0 <= i < |lines| && Sets(lines, entry, i, k) {
        var i :| 0 <= i < |lines| && Sets(lines, entry, i, k);
        if i < |front| {
          assert Sets(front, entry, i, k);
        }
      }
    }
  }

  /** Each name's value comes from the last line that sets it. */
  lemma {:induction false} LastLineWins<V>(lines: seq<string>, entry: string -> Option<(string, V)>, k: string)
    requires k in Dictionary(lines, entry)
    ensures exists i :: (0 <= i < |lines| && Sets(lines, entry, i, k)
        && Dictionary(lines, entry)[k] == entry(lines[i]).value.1
        && forall j :: i < j < |lines| ==> !Sets(lines, entry, j, k))
    decreases |lines|
  {
    var front := lines[..|lines| - 1];
    var last := |lines| - 1;
    if !Sets(lines, entry, last, k) {
      LastLineWins(front, entry, k);
      SetsInFront(lines, entry, k);
      var i :| 0 <= i < |front| && Sets(front, entry, i, k)
        && Dictionary(front, entry)[k] == entry(front[i]).value.1
        && forall j :: i < j < |front| ==> !Sets(front, entry, j, k);
      assert front[i] == lines[i];
      assert Sets(lines, entry, i, k);
    }
  }

  /** The dictionary `getWhtTcs` builds from the listing. */
  function Parse(lines: seq<string>, parseFloat: string -> Option<real>): map<string, TcsValue> {
    Dictionary(lines, line => ParseLine(line, parseFloat))
  }

  /** Lines that are not `TCS.` lines contribute nothing. */
  lemma NonTcsIgnored(lines: seq<string>, line: string, parseFloat: string -> Option<real>)
    requires !StartsWith(line, Prefix)
    ensures Parse(lines + [line], parseFloat) == Parse(lines, parseFloat)
  {
    SilentLineIgnored(lines, line, l => ParseLine(l, parseFloat));
  }

  /** The loop of `getWhtTcs`, filling the dictionary line by line. */
  method ParseListing(lines: seq<string>, parseFloat: string -> Option<real>) returns (data: map<string, TcsValue>)
    ensures data == Parse(lines, parseFloat)
  {
    var entry := line => ParseLine(line, parseFloat);
    data := map[];
    var i := 0;
    while i < |lines|
      invariant 0 <= i <= |lines|
      invariant data == Dictionary(lines[..i], entry)
    {
      assert lines[..i + 1][..i] == lines[..i];
      var kv := ParseLine(lines[i], parseFloat);
      if kv.Some? {
        data := data[kv.value.0 := kv.value.1];
      }
      i := i + 1;
    }
    assert lines[..i] == lines;
  }

  /** The pointing `getWhtTcs` returns: right ascension and declination in
      degrees, sky position angle and focus as found in the dictionary. */
  datatype Pointing = Pointing(ra: real, dec: real, pa: TcsValue, focus: TcsValue)

  /** `tcs_data[key]`. */
  function Lookup(data: map<string, TcsValue>, key: string): (r: Result<TcsValue, Exception>)
    ensures r.Success? <==> key in data
    ensures r.Success? ==> r.value == data[key]
    ensures r.Failure? ==> r.error == KeyError(key)
  {
    if key in data then Success(data[key]) else Failure(KeyError(key))
  }

  /** `s + t` where `s` is a dictionary value and `t` a string: a TypeError
      when the value is a number. */
  function Concat(v: TcsValue, t: string): (r: Result<string, Exception>)
    ensures r.Success? <==> v.Text?
    ensures r.Success? ==> r.value == v.s + t
    ensures r.Failure? ==> r.error == TypeError
  {
    if v.Text? then Success(v.s + t) else Failure(TypeError)
  }

  /** `t + v` where `t` is a string and `v` a dictionary value. */
  function ConcatText(t: string, v: TcsValue): (r: Result<string, Exception>)
    ensures r.Success? <==> v.Text?
    ensures r.Success? ==> r.value == t + v.s
    ensures r.Failure? ==> r.error == TypeError
  {
    if v.Text? then Success(t + v.s) else Failure(TypeError)
  }

  /** The four names the pointing needs, in the order they are read. */
  const RequiredKeys: seq<string> := ["RAHHMMSS", "DECDDMMSS", "skyPa", "focus"]

  /** Both coordinates are present, as text. */
  predicate CoordsText(data: map<string, TcsValue>) {
    && RequiredKeys[0] in data && data[RequiredKeys[0]].Text?
    && RequiredKeys[1] in data && data[RequiredKeys[1]].Text?
  }

  /** The text handed to the sky-coordinate parser: right ascension, a
      space, declination. */
  function CoordText(data: map<string, TcsValue>): string
    requires CoordsText(data)
  {
    data[RequiredKeys[0]].s + " " + data[RequiredKeys[1]].s
  }

  /** When a pointing can be read: both coordinates present as text and
      accepted by the parser, the position angle and focus present. */
  predicate PointingReadable(data: map<string, TcsValue>, skyCoord: string -> Option<(real, real)>) {
    && CoordsText(data) && skyCoord(CoordText(data)).Some?
    && RequiredKeys[2] in data && RequiredKeys[3] in data
  }

  /** The lookups after the loop: the right ascension and declination text
      are joined with a space and handed to `skyCoord` (the sky-coordinate
      parser, returning degrees, `None` where it raises), then the position
      angle and focus are read. Each step fails in turn: a missing name
      raises a KeyError naming it, a number where text is needed a
      TypeError, and the parser its own error. */
  function ReadPointing(data: map<string, TcsValue>, skyCoord: string -> Option<(real, real)>): (r: Result<Pointing, Exception>)
    ensures r.Success? <==> PointingReadable(data, skyCoord)
    ensures r.Success? ==> forall i :: 0 <= i < |RequiredKeys| ==> RequiredKeys[i] in data
    ensures r.Success? ==> data[RequiredKeys[0]].Text? && data[RequiredKeys[1]].Text?
    ensures r.Success? ==>
      && skyCoord(data[RequiredKeys[0]].s + " " + data[RequiredKeys[1]].s) == Some((r.value.ra, r.value.dec))
      && r.value.pa == data[RequiredKeys[2]]
      && r.value.focus == data[RequiredKeys[3]]
    ensures RequiredKeys[0] !in data ==> r == Failure(KeyError(RequiredKeys[0]))
    ensures RequiredKeys[0] in data && !data[RequiredKeys[0]].Text? ==> r == Failure(TypeError)
    ensures RequiredKeys[0] in data && data[RequiredKeys[0]].Text? && RequiredKeys[1] !in data ==>
      r == Failure(KeyError(RequiredKeys[1]))
    ensures (RequiredKeys[0] in data && data[RequiredKeys[0]].Text? &&
             RequiredKeys[1] in data && !data[RequiredKeys[1]].Text?) ==> r == Failure(TypeError)
    ensures CoordsText(data) && skyCoord(CoordText(data)).None? ==> r == Failure(ForeignError)
    ensures CoordsText(data) && skyCoord(CoordText(data)).Some? && RequiredKeys[2] !in data ==>
      r == Failure(KeyError(RequiredKeys[2]))
    ensures (CoordsText(data) && skyCoord(CoordText(data)).Some? &&
             RequiredKeys[2] in data && RequiredKeys[3] !in data) ==> r == Failure(KeyError(RequiredKeys[3]))
    ensures r.Failure? && r.error.KeyError? ==> r.error.key in RequiredKeys && r.error.key !in data
    ensures r.Failure? ==> r.error.KeyError? || r.error == TypeError || r.error == ForeignError
  {
    var ra :- Lookup(data, RequiredKeys[0]);
    var left :- Concat(ra, " ");
    var dec :- Lookup(data, RequiredKeys[1]);
    var text :- ConcatText(left, dec);
    var coo := skyCoord(text);
    if coo.None? then Failure(ForeignError)
    else
      var pa :- Lookup(data, RequiredKeys[2]);
      var focus :- Lookup(data, RequiredKeys[3]);
      Success(Pointing(coo.value.0, coo.value.1, pa, focus))
  }

  /** `getWhtTcs` from the listing's lines onward. */
  function GetWhtTcs(lines: seq<string>, parseFloat: string -> Option<real>,
                     skyCoord: string -> Option<(real, real)>): (r: Result<Pointing, Exception>)
    ensures r.Success? <==> PointingReadable(Parse(lines, parseFloat), skyCoord)
    ensures r.Success? ==> forall i :: 0 <= i < |RequiredKeys| ==> RequiredKeys[i] in Parse(lines, parseFloat)
    ensures r.Failure? && r.error.KeyError? ==> r.error.key in RequiredKeys && r.error.key !in Parse(lines, parseFloat)
  {
    ReadPointing(Parse(lines, parseFloat), skyCoord)
  }

  /** A name the pointing needs is missing exactly when no `TCS.` line of
      the listing matches with that name. */
  lemma MissingKey(lines: seq<string>, parseFloat: string -> Option<real>, k: string)
    ensures k !in Parse(lines, parseFloat) <==>
      forall i :: 0 <= i < |lines| ==> !(MatchLine(lines[i]).Some? && MatchLine(lines[i]).value.name == k)
  {
    var entry := line => ParseLine(line, parseFloat);
    KeysFromLines(lines, entry, k);
    forall i | 0 <= i < |lines|
      ensures Sets(lines, entry, i, k) <==> (MatchLine(lines[i]).Some? && MatchLine(lines[i]).value.name == k)
    {
    }
  }
}
