/** The line scan of `checkSimbad` in hcam_widgets/misc.py: the Simbad
    script service answers with a text page, and the targets it lists after
    its `::data::` marker are collected. The query, the HTTP request and the
    byte decoding of each line are not modelled: the scan starts from the
    decoded lines. */
module Simbad {
  import opened Wrappers
  import opened Text

  /** One collected result. */
  datatype Target = Target(name: string, position: string, frame: string)

  /** What `checkSimbad` returns, and whether it warns that the page held both
      results and an error marker. */
  datatype Found = Found(results: seq<Target>, warned: bool)

  const DataMarker: string := "::data::"
  const ErrorMarker: string := "::error::"
  const TargetPrefix: string := "Target:"
  const Bar: string := " | "

  /** `name, coords = line[7:].split(' | ')` and the result built from them:
      the text after `Target:` must split into exactly two parts, or the
      unpacking raises a ValueError. */
  function ParseTarget(line: string): (r: Result<Target, Exception>)
    requires StartsWith(line, TargetPrefix)
    ensures r.Success? <==> |SplitOn(line[|TargetPrefix|..], Bar)| == 2
    ensures r.Failure? ==> r.error == ValueError
    ensures r.Success? ==> r.value.frame == "ICRS"
  {
    var parts := SplitOn(line[|TargetPrefix|..], Bar);
    if |parts| != 2 then Failure(ValueError)
    else Success(Target(Strip(parts[0], Whitespace), Strip(parts[1], Whitespace), "ICRS"))
  }

  /** A parsed target line is `Target:`, the name, ` | ` and the position,
      where the name does not run into the bar and the position holds no
      bar, and the result holds the name and the position stripped. */
  lemma ParsedTarget(line: string)
    requires StartsWith(line, TargetPrefix) && ParseTarget(line).Success?
    ensures exists a: string, b: string ::
      && line == TargetPrefix + a + Bar + b
      && Find(a + Bar, Bar) == |a| && Find(b, Bar) == |b|
      && ParseTarget(line).value == Target(Strip(a, Whitespace), Strip(b, Whitespace), "ICRS")
  {
    var rest := line[|TargetPrefix|..];
    var parts := SplitOn(rest, Bar);
    JoinTwo(parts, Bar);
    PrefixRest(line, TargetPrefix, parts[0], parts[1]);
  }

  /** Conversely, `Target:`, a name that does not run into the bar, ` | `
      and a position that holds no bar always parse, to the name and the
      position stripped. */
  lemma TargetLineParses(a: string, b: string)
    requires Find(a + Bar, Bar) == |a| && Find(b, Bar) == |b|
    ensures StartsWith(TargetPrefix + a + Bar + b, TargetPrefix)
    ensures ParseTarget(TargetPrefix + a + Bar + b)
      == Success(Target(Strip(a, Whitespace), Strip(b, Whitespace), "ICRS"))
  {
    AfterPrefix(TargetPrefix, a, Bar, b);
    SplitOnTwo(a, Bar, b);
  }

  /** A join of two parts. */
  lemma JoinTwo(parts: seq<string>, sep: string)
    requires |parts| == 2
    ensures Join(parts, sep) == parts[0] + sep + parts[1]
  {
    assert parts[1..] == [parts[1]];
  }

  /** What follows a prefix is the rest of the line. */
  lemma AfterPrefix(prefix: string, a: string, m: string, b: string)
    ensures StartsWith(prefix + a + m + b, prefix)
    ensures (prefix + a + m + b)[|prefix|..] == a + m + b
  {
    assert prefix + a + m + b == prefix + (a + m + b);
  }

  /** A line that starts with a prefix is the prefix and what follows it. */
  lemma PrefixRest(line: string, prefix: string, a: string, b: string)
    requires StartsWith(line, prefix) && line[|prefix|..] == a + Bar + b
    ensures line == prefix + a + Bar + b
  {
    assert line == line[..|prefix|] + line[|prefix|..];
  }

  /** A target line that the scan reads once the data marker has been seen. */
  predicate Collected(line: string, data: bool) {
    (data || StartsWith(line, DataMarker)) && StartsWith(line, TargetPrefix)
  }

  /** The loop of `checkSimbad` from a point where `data` says whether the
      data marker has been seen: every target line read once the marker has
      been seen is parsed, in order, and the first one that does not parse
      ends the scan with its error. */
  function Collect(lines: seq<string>, data: bool): (r: Result<seq<Target>, Exception>)
    ensures r.Failure? ==> r.error == ValueError
    decreases |lines|
  {
    if |lines| == 0 then Success([])
    else
      var line := lines[0];
      var data' := data || StartsWith(line, DataMarker);
      if data' && StartsWith(line, TargetPrefix) then
        var t :- ParseTarget(line);
        var rest :- Collect(lines[1..], data');
        Success([t] + rest)
      else
        Collect(lines[1..], data')
  }

  /** Some line starts with the error marker. */
  predicate ErrorSeen(lines: seq<string>) {
    exists i :: 0 <= i < |lines| && StartsWith(lines[i], ErrorMarker)
  }

  /** `checkSimbad` after the request: the collected results, with the
      warning that an error marker came with some results. */
  function CheckSimbad(lines: seq<string>): (r: Result<Found, Exception>)
    ensures r.Failure? ==> r.error == ValueError
    ensures r.Success? ==> (r.value.warned <==> ErrorSeen(lines) && |r.value.results| > 0)
    ensures r.Success? ==> AllIcrsFrames(r.value.results)
  {
    var results :- Collect(lines, false);
    AllIcrs(lines, false);
    Success(Found(results, ErrorSeen(lines) && |results| > 0))
  }

  /** Every result in `ts` is in the ICRS frame. */
  predicate AllIcrsFrames(ts: seq<Target>) {
    forall i :: 0 <= i < |ts| ==> ts[i].frame == "ICRS"
  }

  /** A result in the ICRS frame followed by such results. */
  lemma IcrsCons(t: Target, ts: seq<Target>)
    requires t.frame == "ICRS" && AllIcrsFrames(ts)
    ensures AllIcrsFrames([t] + ts)
  {
  }

  /** Every collected result is in the ICRS frame. */
  lemma {:induction false} AllIcrs(lines: seq<string>, data: bool)
    requires Collect(lines, data).Success?
    ensures AllIcrsFrames(Collect(lines, data).value)
    decreases |lines|
  {
    if |lines| > 0 {
      var d := data || StartsWith(lines[0], DataMarker);
      var rest := Collect(lines[1..], d);
      CollectStep(lines, data);
      if rest.Success? {
        AllIcrs(lines[1..], d);
        if d && StartsWith(lines[0], TargetPrefix) {
          IcrsCons(ParseTarget(lines[0]).value, rest.value);
        }
      }
    }
  }

  /** Target lines before the data marker are ignored: the scan of the whole
      page is the scan from the first line that starts with the marker. */
  lemma {:induction false} BeforeDataIgnored(lines: seq<string>, k: nat)
    requires k <= |lines|
    requires forall i :: 0 <= i < k ==> !StartsWith(lines[i], DataMarker)
    ensures Collect(lines, false) == Collect(lines[k..], false)
    decreases k
  {
    if k > 0 {
      assert !StartsWith(lines[0], DataMarker);
      BeforeDataIgnored(lines[1..], k - 1);
      assert lines[1..][k - 1..] == lines[k..];
    }
  }

  /** A page with no data marker yields no results, whatever target lines it
      holds. */
  lemma NoDataNoResults(lines: seq<string>)
    requires forall i :: 0 <= i < |lines| ==> !StartsWith(lines[i], DataMarker)
    ensures Collect(lines, false) == Success([])
  {
    BeforeDataIgnored(lines, |lines|);
    assert lines[|lines|..] == [];
  }

  /** Once the scan has succeeded, there is one result per collected target
      line, and each is that line's parse. */
  lemma {:induction false} OneResultPerLine(lines: seq<string>, data: bool)
    requires Collect(lines, data).Success?
    ensures |Collect(lines, data).value| == CountCollected(lines, data)
    decreases |lines|
  {
    if |lines| > 0 {
      var data' := data || StartsWith(lines[0], DataMarker);
      OneResultPerLine(lines[1..], data');
    }
  }

  /** The number of target lines the scan reads from a point on. */
  function CountCollected(lines: seq<string>, data: bool): nat
    decreases |lines|
  {
    if |lines| == 0 then 0
    else
      var data' := data || StartsWith(lines[0], DataMarker);
      (if data' && StartsWith(lines[0], TargetPrefix) then 1 else 0) + CountCollected(lines[1..], data')
  }

  /** A scan result with earlier results put in front of it. */
  function Prepend(xs: seq<Target>, r: Result<seq<Target>, Exception>): Result<seq<Target>, Exception> {
    if r.Success? then Success(xs + r.value) else r
  }

  /** One step of the scan: the first line, read with the data flag it
      brings, then the rest. */
  lemma CollectStep(lines: seq<string>, data: bool)
    requires |lines| > 0
    ensures var d := data || StartsWith(lines[0], DataMarker);
      Collect(lines, data) ==
        if d && StartsWith(lines[0], TargetPrefix) then
          if ParseTarget(lines[0]).Failure? then Failure(ParseTarget(lines[0]).error)
          else Prepend([ParseTarget(lines[0]).value], Collect(lines[1..], d))
        else Collect(lines[1..], d)
  {
  }

  /** Prepending twice is prepending the concatenation. */
  lemma PrependTwice(xs: seq<Target>, ys: seq<Target>, r: Result<seq<Target>, Exception>)
    ensures Prepend(xs, Prepend(ys, r)) == Prepend(xs + ys, r)
  {
    if r.Success? {
      assert xs + (ys + r.value) == (xs + ys) + r.value;
    }
  }

  /** A page has an error marker when its last line or an earlier one
      starts with it. */
  lemma ErrorSeenSnoc(xs: seq<string>, line: string)
    ensures ErrorSeen(xs + [line]) <==> ErrorSeen(xs) || StartsWith(line, ErrorMarker)
  {
    var ys := xs + [line];
    if ErrorSeen(xs) {
      var i :| 0 <= i < |xs| && StartsWith(xs[i], ErrorMarker);
      assert ys[i] == xs[i];
    }
    if StartsWith(line, ErrorMarker) {
      assert ys[|xs|] == line;
    }
    if ErrorSeen(ys) {
      var i :| 0 <= i < |ys| && StartsWith(ys[i], ErrorMarker);
      if i < |xs| {
        assert xs[i] == ys[i];
      }
    }
  }

  /** Prepending no results changes nothing. */
  lemma PrependNothing(r: Result<seq<Target>, Exception>)
    ensures Prepend([], r) == r
  {
    if r.Success? {
      assert [] + r.value == r.value;
    }
  }

  /** The loop of `checkSimbad` as written, with its two flags: it agrees
      with the recursive reading of the scan and reports the error marker. */
  method Scan(lines: seq<string>) returns (r: Result<Found, Exception>)
    ensures r == CheckSimbad(lines)
  {
    var data := false;
    var error := false;
    var results: seq<Target> := [];
    var i := 0;
    assert lines[i..] == lines;
    PrependNothing(Collect(lines, false));
    while i < |lines|
      invariant 0 <= i <= |lines|
      invariant error <==> ErrorSeen(lines[..i])
      invariant Collect(lines, false) == Prepend(results, Collect(lines[i..], data))
    {
      var line := lines[i];
      CollectStep(lines[i..], data);
      assert lines[i..][1..] == lines[i + 1..];
      assert lines[..i + 1] == lines[..i] + [line];
      ErrorSeenSnoc(lines[..i], line);
      if StartsWith(line, DataMarker) {
        data := true;
      }
      if StartsWith(line, ErrorMarker) {
        error := true;
      }
      if data && StartsWith(line, TargetPrefix) {
        var t := ParseTarget(line);
        if t.Failure? {
          return Failure(t.error);
        }
        PrependTwice(results, [t.value], Collect(lines[i + 1..], data));
        results := results + [t.value];
      }
      i := i + 1;
    }
    assert lines[..i] == lines;
    assert lines[i..] == [];
    assert results + [] == results;
    return Success(Found(results, error && |results| > 0));
  }
}
