/** The sanity checks `subprocesses` runs before building any command (dpipe.py:68-86). */
module Sanity {
  import opened Templates
  import opened Outcomes

  /** One element of the iterable: a bare string, a tuple of strings, or any
      other Python object (a list, a number, ...). */
  datatype Item = Str(s: string) | Tup(fields: seq<string>) | Other

  /** Which of the two command-building loops the batch takes (the `strings` flag). */
  datatype Shape = Strings | Tuples

  /** Every item is a string (dpipe.py:72); true of the empty batch. */
  predicate AllStrings(items: seq<Item>)
  {
    forall i :: 0 <= i < |items| ==> items[i].Str?
  }

  /** Every item is a tuple (dpipe.py:73). */
  predicate AllTuples(items: seq<Item>)
  {
    forall i :: 0 <= i < |items| ==> items[i].Tup?
  }

  /** Every tuple has the length of the first one (the loop at dpipe.py:84-85). */
  predicate Uniform(items: seq<Item>)
    requires AllTuples(items) && items != []
  {
    forall i :: 0 <= i < |items| ==> |items[i].fields| == |items[0].fields|
  }

  /** Independent statement of when a batch is accepted: all strings and exactly
      one placeholder (the empty batch included), or a non-empty batch of tuples
      each as long as the placeholder count. */
  ghost predicate Acceptable(t: seq<Token>, items: seq<Item>)
  {
    || (AllStrings(items) && DummyCount(t) == 1)
    || (items != [] && forall i :: 0 <= i < |items| ==> items[i].Tup? && |items[i].fields| == DummyCount(t))
  }

  /** The sanity checks in source order: classification first (dpipe.py:72-77),
      then the placeholder count for strings (dpipe.py:80-81), or uniformity and
      then the placeholder count for tuples (dpipe.py:83-86). */
  function Validate(t: seq<Token>, items: seq<Item>): (r: Result<Shape>)
    ensures r.Ok? <==> Acceptable(t, items)
    ensures r == Err(TypeError) <==> !AllStrings(items) && !AllTuples(items)
    ensures r == Ok(Strings) <==> AllStrings(items) && DummyCount(t) == 1
    ensures r == Ok(Tuples) ==> items != [] && AllTuples(items)
    ensures r == Err(NotUniform) <==>
      items != [] && AllTuples(items) && exists i :: 0 <= i < |items| && |items[i].fields| != |items[0].fields|
    ensures r == Err(DummyMismatch) <==>
      || (AllStrings(items) && DummyCount(t) != 1)
      || (items != [] && AllTuples(items) && Uniform(items) && |items[0].fields| != DummyCount(t))
    ensures r.Err? ==> !r.error.CalledProcessError?
  {
    if AllStrings(items) then
      assert items != [] ==> items[0].Str?;
      if DummyCount(t) == 1 then Ok(Strings) else Err(DummyMismatch)
    else if AllTuples(items) then
      if !Uniform(items) then Err(NotUniform)
      else if |items[0].fields| != DummyCount(t) then Err(DummyMismatch)
      else Ok(Tuples)
    else Err(TypeError)
  }

  /** The empty batch is classified as strings, so it is accepted exactly when the
      template has one placeholder. */
  lemma EmptyBatch(t: seq<Token>)
    ensures Validate(t, []) == (if DummyCount(t) == 1 then Ok(Strings) else Err(DummyMismatch))
  {
  }
}
