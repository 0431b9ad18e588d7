/** The unit tests of `subprocesses`, stated over `Commands` (building without launching). */
module Scenarios {
  import opened Templates
  import opened Outcomes
  import opened Sanity
  import opened Build

  /** A string batch against `['echo', dummy]` gives one `echo` command per string. */
  lemma GoodStrings()
    ensures Commands([Lit("echo"), Dummy], [Str("hello"), Str("world!"), Str("goodbye"), Str("now")]) ==
      Ok([[Lit("echo"), Lit("hello")], [Lit("echo"), Lit("world!")],
          [Lit("echo"), Lit("goodbye")], [Lit("echo"), Lit("now")]])
  {
    var t := [Lit("echo"), Dummy];
    var items := [Str("hello"), Str("world!"), Str("goodbye"), Str("now")];
    assert DummyCount(t) == 1;
    assert Validate(t, items) == Ok(Strings);
    var cmds := Commands(t, items).value;
    assert forall i :: 0 <= i < |items| ==> cmds[i] == [Lit("echo"), Lit(items[i].s)];
    assert cmds == [[Lit("echo"), Lit("hello")], [Lit("echo"), Lit("world!")],
                    [Lit("echo"), Lit("goodbye")], [Lit("echo"), Lit("now")]];
  }

  /** A tuple batch fills the three placeholders of the template in order. */
  lemma GoodTuples()
    ensures Commands([Lit("hey"), Dummy, Lit("name"), Dummy, Dummy],
                     [Tup(["my", "is", "drew"]), Tup(["joels", "aint", "drew"]),
                      Tup(["johns", "isgottabe", "johnny"])]) ==
      Ok([[Lit("hey"), Lit("my"), Lit("name"), Lit("is"), Lit("drew")],
          [Lit("hey"), Lit("joels"), Lit("name"), Lit("aint"), Lit("drew")],
          [Lit("hey"), Lit("johns"), Lit("name"), Lit("isgottabe"), Lit("johnny")]])
  {
    var t := [Lit("hey"), Dummy, Lit("name"), Dummy, Dummy];
    var items := [Tup(["my", "is", "drew"]), Tup(["joels", "aint", "drew"]),
                  Tup(["johns", "isgottabe", "johnny"])];
    assert DummyCount(t) == 3;
    assert !items[0].Str?;
    assert Validate(t, items) == Ok(Tuples);
    HeyName("my", "is", "drew");
    HeyName("joels", "aint", "drew");
    HeyName("johns", "isgottabe", "johnny");
    var cmds := Commands(t, items).value;
    assert cmds == [[Lit("hey"), Lit("my"), Lit("name"), Lit("is"), Lit("drew")],
                    [Lit("hey"), Lit("joels"), Lit("name"), Lit("aint"), Lit("drew")],
                    [Lit("hey"), Lit("johns"), Lit("name"), Lit("isgottabe"), Lit("johnny")]];
  }

  /** The template of the tuple test, filled from one 3-tuple. */
  lemma HeyName(a: string, b: string, c: string)
    ensures Substitute([Lit("hey"), Dummy, Lit("name"), Dummy, Dummy], [a, b, c]) ==
      [Lit("hey"), Lit(a), Lit("name"), Lit(b), Lit(c)]
  {
  }

  /** A string next to a tuple raises TypeError. */
  lemma MixedBatch()
    ensures Commands([Lit("echo"), Dummy], [Str("hello"), Tup(["world"])]) == Err(TypeError)
  {
    var items := [Str("hello"), Tup(["world"])];
    assert !items[1].Str? && !items[0].Tup?;
  }

  /** Tuples of different lengths fail the uniformity assertion. */
  lemma RaggedTuples()
    ensures Commands([Lit("echo"), Dummy], [Tup(["how", "are"]), Tup(["you?"])]) == Err(NotUniform)
  {
    var items := [Tup(["how", "are"]), Tup(["you?"])];
    assert !items[0].Str? && |items[1].fields| != |items[0].fields|;
  }

  /** Uniform 3-tuples against four placeholders fail the placeholder-count assertion. */
  lemma TooFewFields()
    ensures Commands([Lit("echo"), Dummy, Lit("something"), Dummy, Dummy, Dummy],
                     [Tup(["a", "b", "c"]), Tup(["d", "e", "f"])]) == Err(DummyMismatch)
  {
  }
}
