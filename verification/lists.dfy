/** Generic operations on lists used by the parsers: applying a function to
    every element, as a Python list comprehension or `map` does, with or
    without the chance of an exception. */
module Lists {
  import opened Wrappers

  /** `[f(x) for x in xs]`: one result per element, in order. */
  function Map<A, B>(xs: seq<A>, f: A -> B): (r: seq<B>)
    ensures |r| == |xs|
    ensures forall i :: 0 <= i < |xs| ==> r[i] == f(xs[i])
    decreases |xs|
  {
    if |xs| == 0 then [] else [f(xs[0])] + Map(xs[1..], f)
  }

  /** Mapping distributes over concatenation. */
  lemma MapAppend<A, B>(xs: seq<A>, ys: seq<A>, f: A -> B)
    ensures Map(xs + ys, f) == Map(xs, f) + Map(ys, f)
  {
  }

  /** Mapping commutes with dropping a prefix. */
  lemma MapDrop<A, B>(xs: seq<A>, n: nat, f: A -> B)
    requires n <= |xs|
    ensures Map(xs, f)[n..] == Map(xs[n..], f)
  {
  }

  /** Applying a function that may raise to every element in order: the
      first exception propagates, as it does out of a comprehension. */
  function MapAll<A, B>(xs: seq<A>, f: A -> Result<B, Exception>): (r: Result<seq<B>, Exception>)
    ensures r.Success? <==> forall i :: 0 <= i < |xs| ==> f(xs[i]).Success?
    ensures r.Failure? ==> exists i :: 0 <= i < |xs| && f(xs[i]) == Failure(r.error)
    ensures r.Success? ==> |r.value| == |xs|
    ensures r.Success? ==> forall i :: 0 <= i < |xs| ==> f(xs[i]) == Success(r.value[i])
    decreases |xs|
  {
    if |xs| == 0 then Success([])
    else
      var first :- f(xs[0]);
      var rest :- MapAll(xs[1..], f);
      Success([first] + rest)
  }
}
