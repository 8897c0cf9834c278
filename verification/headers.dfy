/** Parsing of the GTC telescope server's header strings
    (hcam_widgets/gtc/headers.py). The server sends a list of strings, each a
    `;`-separated list of `key = value / comment` items; every item is split
    into its name, value and comment before it becomes a FITS card. */
module Headers {
  import opened Wrappers
  import opened Text
  import opened Lists

  /** The characters of the pattern `[=/]+` that items are split on. */
  const Separators: set<char> := {'=', '/'}

  /** The quote character stripped from each piece after the whitespace. */
  const Quote: set<char> := {'\''}

  /** One parsed item: what `parse_hstring` returns as a triple. */
  datatype HeaderItem = HeaderItem(name: string, value: string, comment: string)

  /** Python's `iterable[0], iterable[1], iterable[2:]`: fails with an
      IndexError on fewer than two elements, and otherwise splits the input
      into its first, its second and the (possibly empty) rest. */
  function YieldThree<T>(items: seq<T>): (r: Result<(T, T, seq<T>), Exception>)
    ensures r.Success? <==> |items| >= 2
    ensures r.Success? ==> items == [r.value.0, r.value.1] + r.value.2
    ensures r.Failure? ==> r.error == IndexError
  {
    if |items| < 2 then Failure(IndexError)
    else Success((items[0], items[1], items[2..]))
  }

  /** Python's `re.split("[=/]+", s)`: the text before each maximal run of
      separators, followed by the text after the last run. No piece holds a
      separator. */
  function SplitRuns(s: string): (pieces: seq<string>)
    ensures |pieces| >= 1
    ensures forall i :: 0 <= i < |pieces| ==> NoneIn(pieces[i], Separators)
    decreases |s|
  {
    var k := FirstIn(s, Separators);
    if k == |s| then [s]
    else
      var m := k + Leading(s[k..], Separators);
      [s[..k]] + SplitRuns(s[m..])
  }

  /** Python's `filter(None, pieces)` on strings: the non-empty pieces. */
  function NonEmpty(pieces: seq<string>): (r: seq<string>)
    ensures |r| <= |pieces|
    ensures forall i :: 0 <= i < |r| ==> r[i] != ""
    decreases |pieces|
  {
    if |pieces| == 0 then []
    else if pieces[0] == "" then NonEmpty(pieces[1..])
    else [pieces[0]] + NonEmpty(pieces[1..])
  }

  /** The filter drops the empty pieces and keeps every other piece, each as
      often as it occurs. */
  lemma {:induction false} NonEmptyContents(pieces: seq<string>)
    ensures multiset(NonEmpty(pieces)) == multiset(pieces)["" := 0]
    decreases |pieces|
  {
    if |pieces| > 0 {
      NonEmptyContents(pieces[1..]);
      assert pieces == [pieces[0]] + pieces[1..];
    }
  }

  /** Dropping pieces keeps out any character the pieces keep out. */
  lemma {:induction false} NonEmptyNoneIn(pieces: seq<string>, bad: set<char>)
    requires forall i :: 0 <= i < |pieces| ==> NoneIn(pieces[i], bad)
    ensures forall i :: 0 <= i < |NonEmpty(pieces)| ==> NoneIn(NonEmpty(pieces)[i], bad)
    decreases |pieces|
  {
    if |pieces| > 0 {
      NonEmptyNoneIn(pieces[1..], bad);
    }
  }

  /** `val.strip().strip("'")`: whitespace first, then quotes. */
  function CleanPiece(piece: string): string {
    Strip(Strip(piece, Whitespace), Quote)
  }

  /** The cleaning step applied to every piece, in order. */
  function CleanAll(pieces: seq<string>): seq<string> {
    Map(pieces, CleanPiece)
  }

  /** The list `parse_hstring` hands to `yield_three`. */
  function Pieces(hs: string): seq<string> {
    CleanAll(NonEmpty(SplitRuns(hs)))
  }

  /** `parse_hstring`: fails with an IndexError exactly when fewer than two
      non-empty pieces remain after the split; otherwise neither the name nor
      the value holds a separator. */
  function ParseHString(hs: string): (r: Result<HeaderItem, Exception>)
    ensures r.Success? <==> |NonEmpty(SplitRuns(hs))| >= 2
    ensures r.Failure? ==> r.error == IndexError
    ensures r.Success? ==> NoneIn(r.value.name, Separators) && NoneIn(r.value.value, Separators)
  {
    var pieces := Pieces(hs);
    var (name, value, rest) :- YieldThree(pieces);
    NonEmptyNoneIn(SplitRuns(hs), Separators);
    CleanKeepsSeparatorsOut(NonEmpty(SplitRuns(hs))[0]);
    CleanKeepsSeparatorsOut(NonEmpty(SplitRuns(hs))[1]);
    Success(HeaderItem(name, value, Join(rest, "/")))
  }

  /** The name and value are the first two non-empty pieces, stripped of
      whitespace and then of quotes, and the comment is every later cleaned
      piece joined with `/` (empty when there is none). */
  lemma ParseHStringParts(hs: string)
    requires |NonEmpty(SplitRuns(hs))| >= 2
    ensures var raw := NonEmpty(SplitRuns(hs));
      ParseHString(hs) == Success(HeaderItem(
        Strip(Strip(raw[0], Whitespace), Quote),
        Strip(Strip(raw[1], Whitespace), Quote),
        Join(CleanAll(raw[2..]), "/")))
  {
    var raw := NonEmpty(SplitRuns(hs));
    MapDrop(raw, 2, CleanPiece);
  }

  /** Cleaning a piece cannot bring a separator in. */
  lemma CleanKeepsSeparatorsOut(piece: string)
    requires NoneIn(piece, Separators)
    ensures NoneIn(CleanPiece(piece), Separators)
  {
    StripKeepsNoneIn(piece, Whitespace, Separators);
    StripKeepsNoneIn(Strip(piece, Whitespace), Quote, Separators);
  }

  /** A piece of text the round trip preserves: non-empty, no separator, and
      neither end is whitespace or a quote. */
  predicate Bare(x: string) {
    && |x| > 0
    && NoneIn(x, Separators)
    && x[0] !in Whitespace && x[|x| - 1] !in Whitespace
    && x[0] !in Quote && x[|x| - 1] !in Quote
  }

  /** How the telescope server writes one item. */
  function Render(name: string, value: string, comment: string): string {
    name + " = " + value + (if comment == "" then "" else " / " + comment)
  }

  /** Blanks around bare text bring in no separator. */
  lemma PaddedNoneIn(x: string)
    requires Bare(x)
    ensures NoneIn(" " + x, Separators)
    ensures NoneIn(x + " ", Separators)
    ensures NoneIn(" " + x + " ", Separators)
  {
    NoneInConcat(" ", x, Separators);
    NoneInConcat(x, " ", Separators);
    NoneInConcat(" " + x, " ", Separators);
  }

  /** The split cuts at the first separator run, wherever it is. */
  lemma SplitRunsAt(s: string, k: nat, m: nat)
    requires k < m <= |s|
    requires forall i :: 0 <= i < k ==> s[i] !in Separators
    requires forall i :: k <= i < m ==> s[i] in Separators
    requires m < |s| ==> s[m] !in Separators
    ensures SplitRuns(s) == [s[..k]] + SplitRuns(s[m..])
  {
    FirstInAt(s, Separators, k);
    RunLength(s, k, m);
    SplitRunsUnfold(s, k, m);
  }

  /** `SplitRuns` unfolded once, at a known cut and run end. */
  lemma SplitRunsUnfold(s: string, k: nat, m: nat)
    requires k < |s| && FirstIn(s, Separators) == k
    requires k + Leading(s[k..], Separators) == m
    ensures SplitRuns(s) == [s[..k]] + SplitRuns(s[m..])
  {
  }

  /** The run of separators starting at `k` ends at `m`. */
  lemma RunLength(s: string, k: nat, m: nat)
    requires k < m <= |s|
    requires forall i :: k <= i < m ==> s[i] in Separators
    requires m < |s| ==> s[m] !in Separators
    ensures k + Leading(s[k..], Separators) == m
  {
    LeadingAt(s[k..], Separators, m - k);
  }

  /** A separator run between a separator-free head and a tail that does not
      start with a separator makes a single cut. */
  lemma SplitRunsCons(a: string, run: string, b: string)
    requires NoneIn(a, Separators)
    requires |run| > 0 && AllIn(run, Separators)
    requires b == [] || b[0] !in Separators
    ensures SplitRuns(a + run + b) == [a] + SplitRuns(b)
  {
    var s := a + run + b;
    var m := |a| + |run|;
    assert s[..|a|] == a;
    assert s[m..] == b;
    assert forall i :: |a| <= i < m ==> s[i] == run[i - |a|];
    SplitRunsAt(s, |a|, m);
  }

  /** Text without separators is a single piece. */
  lemma SplitRunsNone(a: string)
    requires NoneIn(a, Separators)
    ensures SplitRuns(a) == [a]
  {
    FirstInAt(a, Separators, |a|);
  }

  /** A join of two or more parts, unfolded once. */
  lemma JoinCons(parts: seq<string>, sep: string)
    requires |parts| >= 2
    ensures Join(parts, sep) == parts[0] + sep + Join(parts[1..], sep)
  {
  }

  /** A join of non-empty parts starts with the first part's first character. */
  lemma JoinHead(parts: seq<string>, sep: string)
    requires |parts| >= 1 && |parts[0]| > 0
    ensures |Join(parts, sep)| > 0 && Join(parts, sep)[0] == parts[0][0]
  {
  }

  /** Non-empty text without separators. */
  predicate Solid(x: string) {
    |x| > 0 && NoneIn(x, Separators)
  }

  /** Bare parts are solid. */
  lemma BareSolid(parts: seq<string>)
    requires forall i :: 0 <= i < |parts| ==> Bare(parts[i])
    ensures forall i :: 0 <= i < |parts| ==> Solid(parts[i])
  {
  }

  /** The parts after the first of solid parts are solid. */
  lemma SolidTail(parts: seq<string>)
    requires |parts| >= 1
    requires forall i :: 0 <= i < |parts| ==> Solid(parts[i])
    ensures forall i :: 0 <= i < |parts[1..]| ==> Solid(parts[1..][i])
  {
  }

  /** A non-empty list is its head before its tail. */
  lemma HeadTail<T>(xs: seq<T>)
    requires |xs| >= 1
    ensures [xs[0]] + xs[1..] == xs
  {
  }

  /** Solid parts joined with slashes start with a non-separator. */
  lemma JoinSolidHead(parts: seq<string>)
    requires |parts| >= 1
    requires forall i :: 0 <= i < |parts| ==> Solid(parts[i])
    ensures |Join(parts, "/")| > 0 && Join(parts, "/")[0] !in Separators
  {
    JoinHead(parts, "/");
  }

  /** Parts joined with single slashes split back into those parts. */
  lemma {:induction false} SplitRunsJoin(parts: seq<string>)
    requires |parts| >= 1
    requires forall i :: 0 <= i < |parts| ==> Solid(parts[i])
    ensures SplitRuns(Join(parts, "/")) == parts
    decreases |parts|
  {
    if |parts| == 1 {
      SplitRunsNone(parts[0]);
    } else {
      var tail := parts[1..];
      SolidTail(parts);
      SplitRunsJoin(tail);
      JoinSolidHead(tail);
      JoinCons(parts, "/");
      SplitRunsCons(parts[0], "/", Join(tail, "/"));
      HeadTail(parts);
    }
  }

  /** One cut at a slash after a padded head. */
  lemma SplitRunsAfterSlash(head: string, rest: string, tail: seq<string>)
    requires NoneIn(head, Separators)
    requires SplitRuns(rest) == tail
    requires |rest| > 0 && rest[0] !in Separators
    ensures SplitRuns(head + "/" + rest) == [head] + tail
  {
    SplitRunsCons(head, "/", rest);
  }

  /** A blank in front of a slash-joined list stays with its first part. */
  lemma SplitRunsPadHead(parts: seq<string>)
    requires |parts| >= 1
    requires forall i :: 0 <= i < |parts| ==> Bare(parts[i])
    ensures SplitRuns(" " + Join(parts, "/")) == [" " + parts[0]] + parts[1..]
  {
    PaddedNoneIn(parts[0]);
    if |parts| == 1 {
      SplitRunsNone(" " + parts[0]);
    } else {
      BareTail(parts);
      BareSolid(parts[1..]);
      SplitRunsJoin(parts[1..]);
      JoinSolidHead(parts[1..]);
      PadJoinCons(parts);
      SplitRunsAfterSlash(" " + parts[0], Join(parts[1..], "/"), parts[1..]);
    }
  }

  /** A padded join of two or more parts, unfolded once. */
  lemma PadJoinCons(parts: seq<string>)
    requires |parts| >= 2
    ensures " " + Join(parts, "/") == (" " + parts[0]) + "/" + Join(parts[1..], "/")
  {
  }

  /** The shape of a rendered item with a comment. */
  lemma RenderShape(name: string, value: string, comment: string)
    requires comment != ""
    ensures Render(name, value, comment)
      == (name + " ") + "=" + ((" " + value + " ") + "/" + (" " + comment))
  {
  }

  /** How a rendered item with no comment splits. */
  lemma SplitRenderPlain(name: string, value: string)
    requires Bare(name) && Bare(value)
    ensures SplitRuns(Render(name, value, "")) == [name + " ", " " + value]
  {
    assert Render(name, value, "") == (name + " ") + "=" + (" " + value);
    PaddedNoneIn(name);
    PaddedNoneIn(value);
    SplitRunsNone(" " + value);
    SplitRunsCons(name + " ", "=", " " + value);
  }

  /** Two cuts, at an `=` and then at a `/`, in front of a tail that splits
      on its own. */
  lemma SplitRunsTwoCuts(a: string, b: string, c: string, tail: seq<string>)
    requires NoneIn(a, Separators) && NoneIn(b, Separators) && |b| > 0
    requires SplitRuns(c) == tail && |c| > 0 && c[0] !in Separators
    ensures SplitRuns(a + "=" + (b + "/" + c)) == [a, b] + tail
  {
    SplitRunsCons(b, "/", c);
    SplitRunsCons(a, "=", b + "/" + c);
    ConsTwo(a, b, tail);
  }

  /** Regrouping a list of two pieces and a tail. */
  lemma ConsTwo<T>(a: T, b: T, rest: seq<T>)
    ensures [a] + ([b] + rest) == [a, b] + rest
  {
  }

  /** Regrouping a list of three pieces and a tail. */
  lemma ConsThree<T>(a: T, b: T, c: T, rest: seq<T>)
    ensures [a, b] + ([c] + rest) == [a, b, c] + rest
  {
  }

  /** How a rendered item with a comment splits: the blanks around each
      separator stay on the pieces, to be stripped later. */
  lemma SplitRenderComment(name: string, value: string, comments: seq<string>)
    requires Bare(name) && Bare(value)
    requires |comments| >= 1
    requires forall i :: 0 <= i < |comments| ==> Bare(comments[i])
    ensures SplitRuns(Render(name, value, Join(comments, "/")))
      == [name + " ", " " + value + " ", " " + comments[0]] + comments[1..]
  {
    BareSolid(comments);
    JoinSolidHead(comments);
    RenderShape(name, value, Join(comments, "/"));
    SplitRunsPadHead(comments);
    PaddedNoneIn(name);
    PaddedNoneIn(value);
    SplitRunsTwoCuts(name + " ", " " + value + " ", " " + Join(comments, "/"),
      [" " + comments[0]] + comments[1..]);
    ConsThree(name + " ", " " + value + " ", " " + comments[0], comments[1..]);
  }

  /** Filtering out empty pieces keeps a list with no empty piece as it is. */
  lemma {:induction false} NonEmptyKeeps(pieces: seq<string>)
    requires forall i :: 0 <= i < |pieces| ==> pieces[i] != ""
    ensures NonEmpty(pieces) == pieces
    decreases |pieces|
  {
    if |pieces| > 0 {
      NonEmptyKeeps(pieces[1..]);
      assert pieces == [pieces[0]] + pieces[1..];
    }
  }

  /** Cleaning takes off surrounding blanks and leaves bare text alone. */
  lemma CleanPadded(p: string, x: string, q: string)
    requires AllIn(p, Whitespace) && AllIn(q, Whitespace)
    requires Bare(x)
    ensures CleanPiece(p + x + q) == x
  {
    StripPadded(p, x, q, Whitespace);
    StripUnpadded(x, Quote);
  }

  /** The three paddings a rendered item puts around bare text, and none. */
  lemma CleanPaddings(x: string)
    requires Bare(x)
    ensures CleanPiece(x + " ") == x
    ensures CleanPiece(" " + x) == x
    ensures CleanPiece(" " + x + " ") == x
    ensures CleanPiece(x) == x
  {
    CleanPaddedRight(x);
    CleanPaddedLeft(x);
    CleanPadded(" ", x, " ");
    CleanUnpadded(x);
  }

  /** A blank after bare text is cleaned off. */
  lemma CleanPaddedRight(x: string)
    requires Bare(x)
    ensures CleanPiece(x + " ") == x
  {
    assert [] + x + " " == x + " ";
    CleanPadded([], x, " ");
  }

  /** A blank before bare text is cleaned off. */
  lemma CleanPaddedLeft(x: string)
    requires Bare(x)
    ensures CleanPiece(" " + x) == x
  {
    assert " " + x + [] == " " + x;
    CleanPadded(" ", x, []);
  }

  /** Bare text is left as it is. */
  lemma CleanUnpadded(x: string)
    requires Bare(x)
    ensures CleanPiece(x) == x
  {
    StripUnpadded(x, Whitespace);
    StripUnpadded(x, Quote);
  }

  /** Parsing is fixed once the split is known: when no piece is empty, the
      cleaned pieces give name, value and the comment parts. */
  lemma ParseFromPieces(hs: string, raw: seq<string>, name: string, value: string, comments: seq<string>)
    requires SplitRuns(hs) == raw
    requires NonEmpty(raw) == raw
    requires CleanAll(raw) == [name, value] + comments
    ensures ParseHString(hs) == Success(HeaderItem(name, value, Join(comments, "/")))
  {
    assert Pieces(hs) == [name, value] + comments;
    assert Pieces(hs)[2..] == comments;
  }

  /** Cleaning a list piece by piece. */
  lemma CleanList(raw: seq<string>, target: seq<string>)
    requires |raw| == |target|
    requires forall i :: 0 <= i < |raw| ==> CleanPiece(raw[i]) == target[i]
    ensures CleanAll(raw) == target
  {
  }

  /** Cleaning a list of two pieces. */
  lemma CleanAllTwo(a: string, b: string)
    ensures CleanAll([a, b]) == [CleanPiece(a), CleanPiece(b)]
  {
  }

  /** Cleaning a list of three pieces. */
  lemma CleanAllThree(a: string, b: string, c: string)
    ensures CleanAll([a, b, c]) == [CleanPiece(a), CleanPiece(b), CleanPiece(c)]
  {
    assert [a, b, c][1..] == [b, c];
  }

  /** A list of bare parts is left alone by cleaning. */
  lemma CleanAllBare(parts: seq<string>)
    requires forall i :: 0 <= i < |parts| ==> Bare(parts[i])
    ensures CleanAll(parts) == parts
  {
    forall i | 0 <= i < |parts|
      ensures CleanPiece(parts[i]) == parts[i]
    {
      CleanPaddings(parts[i]);
    }
    CleanList(parts, parts);
  }

  /** Cleaning distributes over concatenation. */
  lemma CleanAllAppend(xs: seq<string>, ys: seq<string>)
    ensures CleanAll(xs + ys) == CleanAll(xs) + CleanAll(ys)
  {
    MapAppend(xs, ys, CleanPiece);
  }

  /** The tail of a list of bare parts is bare. */
  lemma BareTail(parts: seq<string>)
    requires |parts| >= 1
    requires forall i :: 0 <= i < |parts| ==> Bare(parts[i])
    ensures forall i :: 0 <= i < |parts[1..]| ==> Bare(parts[1..][i])
  {
  }

  /** A list and its first element, regrouped behind two more. */
  lemma ListHead<T>(a: T, b: T, xs: seq<T>)
    requires |xs| >= 1
    ensures [a, b, xs[0]] + xs[1..] == [a, b] + xs
  {
  }

  /** The cleaned pieces of a rendered item with a comment. */
  lemma CleanRenderComment(name: string, value: string, comments: seq<string>)
    requires Bare(name) && Bare(value)
    requires |comments| >= 1
    requires forall i :: 0 <= i < |comments| ==> Bare(comments[i])
    ensures CleanAll([name + " ", " " + value + " ", " " + comments[0]] + comments[1..])
      == [name, value] + comments
  {
    CleanPaddings(name);
    CleanPaddings(value);
    CleanPaddings(comments[0]);
    CleanAllThree(name + " ", " " + value + " ", " " + comments[0]);
    BareTail(comments);
    CleanAllBare(comments[1..]);
    CleanAllAppend([name + " ", " " + value + " ", " " + comments[0]], comments[1..]);
    ListHead(name, value, comments);
  }

  /** Bare parts are never empty. */
  lemma BareNonEmpty(parts: seq<string>)
    requires forall i :: 0 <= i < |parts| ==> Bare(parts[i])
    ensures forall i :: 0 <= i < |parts| ==> parts[i] != ""
  {
  }

  /** Three non-empty pieces survive the filter. */
  lemma NonEmptyKeepsThree(a: string, b: string, c: string)
    requires a != "" && b != "" && c != ""
    ensures NonEmpty([a, b, c]) == [a, b, c]
  {
    assert [a, b, c][1..] == [b, c];
    NonEmptyKeepsTwo(b, c);
  }

  /** The pieces of a rendered item with a comment are all kept. */
  lemma RenderCommentPiecesKept(name: string, value: string, comments: seq<string>)
    requires Bare(name) && Bare(value)
    requires |comments| >= 1
    requires forall i :: 0 <= i < |comments| ==> Bare(comments[i])
    ensures NonEmpty([name + " ", " " + value + " ", " " + comments[0]] + comments[1..])
      == [name + " ", " " + value + " ", " " + comments[0]] + comments[1..]
  {
    BareTail(comments);
    BareNonEmpty(comments[1..]);
    NonEmptyKeeps(comments[1..]);
    NonEmptyKeepsThree(name + " ", " " + value + " ", " " + comments[0]);
    NonEmptyAppend([name + " ", " " + value + " ", " " + comments[0]], comments[1..]);
  }

  /** Round trip for an item with a comment. */
  lemma ParseRenderComment(name: string, value: string, comments: seq<string>)
    requires Bare(name) && Bare(value)
    requires |comments| >= 1
    requires forall i :: 0 <= i < |comments| ==> Bare(comments[i])
    ensures ParseHString(Render(name, value, Join(comments, "/")))
      == Success(HeaderItem(name, value, Join(comments, "/")))
  {
    SplitRenderComment(name, value, comments);
    RenderCommentPiecesKept(name, value, comments);
    CleanRenderComment(name, value, comments);
    ParseFromPieces(Render(name, value, Join(comments, "/")),
      [name + " ", " " + value + " ", " " + comments[0]] + comments[1..], name, value, comments);
  }

  /** The pieces of a rendered item without a comment are kept, and clean to
      the name and the value. */
  lemma PlainPieces(name: string, value: string)
    requires Bare(name) && Bare(value)
    ensures NonEmpty([name + " ", " " + value]) == [name + " ", " " + value]
    ensures CleanAll([name + " ", " " + value]) == [name, value]
  {
    CleanPaddings(name);
    CleanPaddings(value);
    CleanAllTwo(name + " ", " " + value);
    NonEmptyKeepsTwo(name + " ", " " + value);
  }

  /** Two non-empty pieces survive the filter. */
  lemma NonEmptyKeepsTwo(a: string, b: string)
    requires a != "" && b != ""
    ensures NonEmpty([a, b]) == [a, b]
  {
    assert [a, b][1..] == [b];
  }

  /** Round trip for an item without a comment. */
  lemma ParseRenderPlain(name: string, value: string)
    requires Bare(name) && Bare(value)
    ensures ParseHString(Render(name, value, "")) == Success(HeaderItem(name, value, ""))
  {
    SplitRenderPlain(name, value);
    PlainPieces(name, value);
    ParseFromPieces(Render(name, value, ""), [name + " ", " " + value], name, value, []);
  }

  /** Round trip: an item written the way the server writes it, with bare
      name, value and slash-separated comment parts, parses back to exactly
      that name, value and comment. */
  lemma ParseRender(name: string, value: string, comments: seq<string>)
    requires Bare(name) && Bare(value)
    requires forall i :: 0 <= i < |comments| ==> Bare(comments[i])
    ensures ParseHString(Render(name, value, Join(comments, "/")))
      == Success(HeaderItem(name, value, Join(comments, "/")))
  {
    if comments == [] {
      ParseRenderPlain(name, value);
    } else {
      ParseRenderComment(name, value, comments);
    }
  }

  /** The text of an item whose comment holds an `=`, grouped at its cuts. */
  lemma EqualsCommentShape(name: string, value: string, c1: string, c2: string)
    ensures name + " = " + value + " / " + c1 + "=" + c2
      == (name + " ") + "=" + ((" " + value + " ") + "/" + ((" " + c1) + "=" + c2))
  {
  }

  /** How an item whose comment holds an `=` splits. */
  lemma SplitCommentWithEquals(name: string, value: string, c1: string, c2: string)
    requires Bare(name) && Bare(value) && Bare(c1) && Bare(c2)
    ensures SplitRuns(name + " = " + value + " / " + c1 + "=" + c2)
      == [name + " ", " " + value + " ", " " + c1] + [c2]
  {
    PaddedNoneIn(name);
    PaddedNoneIn(value);
    PaddedNoneIn(c1);
    SplitRunsNone(c2);
    SplitRunsCons(" " + c1, "=", c2);
    EqualsCommentShape(name, value, c1, c2);
    SplitRunsTwoCuts(name + " ", " " + value + " ", (" " + c1) + "=" + c2, [" " + c1] + [c2]);
    ConsThree(name + " ", " " + value + " ", " " + c1, [c2]);
  }

  /** Every separator inside a comment comes back as `/`: the comment is
      rebuilt by joining its pieces with slashes whatever separated them. */
  lemma CommentSeparatorsBecomeSlashes(name: string, value: string, c1: string, c2: string)
    requires Bare(name) && Bare(value) && Bare(c1) && Bare(c2)
    ensures ParseHString(name + " = " + value + " / " + c1 + "=" + c2)
      == Success(HeaderItem(name, value, c1 + "/" + c2))
  {
    var cs := [c1, c2];
    assert cs[0] == c1 && cs[1..] == [c2];
    SplitCommentWithEquals(name, value, c1, c2);
    RenderCommentPiecesKept(name, value, cs);
    CleanRenderComment(name, value, cs);
    ParseFromPieces(name + " = " + value + " / " + c1 + "=" + c2,
      [name + " ", " " + value + " ", " " + c1] + [c2], name, value, cs);
    assert Join(cs, "/") == c1 + "/" + c2;
  }

  /** `val.strip()`. */
  function StripBlank(s: string): string {
    Strip(s, Whitespace)
  }

  /** `[val.strip() for val in fields if val.strip() != '']`. */
  function StrippedFields(fields: seq<string>): (items: seq<string>)
    ensures forall i :: 0 <= i < |items| ==> items[i] != ""
  {
    NonEmpty(Map(fields, StripBlank))
  }

  /** The item strings `create_header_from_telpars` builds: the input strings
      joined with `;`, split on `;`, stripped, blanks dropped. No item is
      empty and none contains `;`. */
  function TelparItems(telpars: seq<string>): (items: seq<string>)
    ensures forall i :: 0 <= i < |items| ==> items[i] != "" && NoneIn(items[i], {';'})
  {
    var fields := Split(Join(telpars, ";"), ';');
    StrippedNoneIn(fields, {';'});
    StrippedFields(fields)
  }

  /** Stripping keeps characters out that were not there. */
  lemma StrippedNoneIn(fields: seq<string>, bad: set<char>)
    requires forall i :: 0 <= i < |fields| ==> NoneIn(fields[i], bad)
    ensures forall i :: 0 <= i < |StrippedFields(fields)| ==> NoneIn(StrippedFields(fields)[i], bad)
  {
    var stripped := Map(fields, StripBlank);
    forall i | 0 <= i < |stripped|
      ensures NoneIn(stripped[i], bad)
    {
      StripKeepsNoneIn(fields[i], Whitespace, bad);
    }
    NonEmptyNoneIn(stripped, bad);
  }

  /** The items of each input string on its own, concatenated in order: an
      independent statement of what the joined split computes. */
  function ItemsPerString(telpars: seq<string>): seq<string>
    decreases |telpars|
  {
    if |telpars| == 0 then []
    else StrippedFields(Split(telpars[0], ';')) + ItemsPerString(telpars[1..])
  }

  /** Filtering distributes over concatenation. */
  lemma {:induction false} NonEmptyAppend(xs: seq<string>, ys: seq<string>)
    ensures NonEmpty(xs + ys) == NonEmpty(xs) + NonEmpty(ys)
    decreases |xs|
  {
    if |xs| > 0 {
      assert (xs + ys)[1..] == xs[1..] + ys;
      NonEmptyAppend(xs[1..], ys);
    } else {
      assert xs + ys == ys;
    }
  }

  /** Stripping field lists distributes over their concatenation. */
  lemma StrippedFieldsAppend(xs: seq<string>, ys: seq<string>)
    ensures StrippedFields(xs + ys) == StrippedFields(xs) + StrippedFields(ys)
  {
    MapAppend(xs, ys, StripBlank);
    NonEmptyAppend(Map(xs, StripBlank), Map(ys, StripBlank));
  }

  /** The item list is, in order, each input string's own items. */
  lemma {:induction false} TelparItemsPerString(telpars: seq<string>)
    ensures TelparItems(telpars) == ItemsPerString(telpars)
    decreases |telpars|
  {
    if |telpars| == 0 {
      assert Split("", ';') == [""];
    } else if |telpars| == 1 {
      assert Join(telpars, ";") == telpars[0];
      assert ItemsPerString(telpars[1..]) == [];
    } else {
      var rest := telpars[1..];
      TelparItemsPerString(rest);
      assert Join(telpars, ";") == telpars[0] + [';'] + Join(rest, ";");
      SplitConcat(telpars[0], Join(rest, ";"), ';');
      StrippedFieldsAppend(Split(telpars[0], ';'), Split(Join(rest, ";"), ';'));
    }
  }

  /** Parsing every item, as `fits.Header(map(parse_hstring, pars))` does:
      all items parse or the IndexError of the first bad one escapes. */
  function ParseAll(items: seq<string>): (r: Result<seq<HeaderItem>, Exception>)
    ensures r.Success? <==> forall i :: 0 <= i < |items| ==> ParseHString(items[i]).Success?
    ensures r.Failure? ==> r.error == IndexError
    ensures r.Success? ==> |r.value| == |items|
    ensures r.Success? ==> forall i :: 0 <= i < |items| ==> ParseHString(items[i]) == Success(r.value[i])
  {
    MapAll(items, ParseHString)
  }

  /** The cards `create_header_from_telpars` hands to `fits.Header`. */
  function HeaderFromTelpars(telpars: seq<string>): (r: Result<seq<HeaderItem>, Exception>)
    ensures r.Success? ==> |r.value| == |TelparItems(telpars)|
    ensures r.Failure? ==> r.error == IndexError
  {
    ParseAll(TelparItems(telpars))
  }
}
