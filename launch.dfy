/** Launching the built commands and joining them (dpipe.py:91-114). A launched
    child is represented by its command; the exit code each child returns is
    input data, indexed by launch order. */
module Launch {
  import opened Templates
  import opened Outcomes
  import opened Sanity
  import opened Build

  /** Every child exited with code 0. */
  predicate AllZero(codes: seq<int>)
  {
    forall j :: 0 <= j < |codes| ==> codes[j] == 0
  }

  /** Index i holds the first non-zero exit code in wait order. */
  ghost predicate FirstNonZero(codes: seq<int>, i: nat)
  {
    i < |codes| && codes[i] != 0 && forall j :: 0 <= j < i ==> codes[j] == 0
  }

  /** What the wait loop reports after waiting on `waited` handles: success iff
      every code is 0, having waited on all of them; otherwise the exit code and
      command of the first failing handle, which is the last one waited on. */
  ghost predicate JoinedAs(handlers: seq<seq<Token>>, codes: seq<int>, outcome: Outcome, waited: nat)
    requires |codes| == |handlers|
  {
    && (outcome.Pass? <==> AllZero(codes))
    && (outcome.Pass? ==> waited == |handlers|)
    && (outcome.Fail? ==>
          && 0 < waited
          && FirstNonZero(codes, waited - 1)
          && outcome.error == CalledProcessError(codes[waited - 1], handlers[waited - 1]))
  }

  /** The string launch loop (dpipe.py:98-102): build each item's command and
      append it to the handler list through `log_and_append` (dpipe.py:91-94). */
  method LaunchStrings(template: seq<Token>, dummyIndices: seq<nat>, items: seq<Item>)
    returns (handlers: seq<seq<Token>>)
    requires dummyIndices == DummyIndices(template)
    requires AllStrings(items)
    ensures |handlers| == |items|
    ensures forall j :: 0 <= j < |items| ==> handlers[j] == SubstituteAll(template, items[j].s)
  {
    handlers := [];
    for i := 0 to |items|
      invariant |handlers| == i
      invariant forall j :: 0 <= j < i ==> handlers[j] == SubstituteAll(template, items[j].s)
    {
      var command := FillFromString(template, dummyIndices, items[i].s);
      handlers := handlers + [command];
    }
  }

  /** The tuple launch loop (dpipe.py:104-108), likewise. */
  method LaunchTuples(template: seq<Token>, dummyIndices: seq<nat>, items: seq<Item>)
    returns (handlers: seq<seq<Token>>)
    requires dummyIndices == DummyIndices(template)
    requires AllTuples(items)
    ensures |handlers| == |items|
    ensures forall j :: 0 <= j < |items| ==> handlers[j] == Substitute(template, items[j].fields)
  {
    handlers := [];
    for i := 0 to |items|
      invariant |handlers| == i
      invariant forall j :: 0 <= j < i ==> handlers[j] == Substitute(template, items[j].fields)
    {
      var command := FillFromTuple(template, dummyIndices, items[i].fields);
      handlers := handlers + [command];
    }
  }

  /** The launch phase (dpipe.py:89-108): compute `dummy_indices`, then run the
      loop the `strings` flag selects. The handler list holds exactly the
      commands `Commands` specifies, in iteration order. */
  method LaunchAll(template: seq<Token>, items: seq<Item>, strings: bool)
    returns (handlers: seq<seq<Token>>)
    requires Validate(template, items) == Ok(if strings then Strings else Tuples)
    ensures Commands(template, items) == Ok(handlers)
  {
    var dummyIndices := DummyIndices(template);
    if strings {
      handlers := LaunchStrings(template, dummyIndices, items);
    } else {
      handlers := LaunchTuples(template, dummyIndices, items);
    }
    assert handlers == Commands(template, items).value;
  }

  /** The wait loop (dpipe.py:110-114): wait on each handle in launch order and
      raise at the first non-zero exit code, without waiting on later handles. */
  method WaitAll(handlers: seq<seq<Token>>, codes: seq<int>) returns (outcome: Outcome, waited: nat)
    requires |codes| == |handlers|
    ensures waited <= |handlers| && JoinedAs(handlers, codes, outcome, waited)
  {
    waited := 0;
    for i := 0 to |handlers|
      invariant waited == i
      invariant forall j :: 0 <= j < i ==> codes[j] == 0
    {
      var rc := codes[i];
      waited := i + 1;
      if rc != 0 {
        outcome := Fail(CalledProcessError(rc, handlers[i]));
        return;
      }
    }
    outcome := Pass;
  }

  /** `subprocesses(template, iterable)`: the sanity checks, then the launches,
      then the join. A batch that fails a sanity check raises before any child
      is launched. */
  method Subprocesses(template: seq<Token>, items: seq<Item>, codes: seq<int>)
    returns (outcome: Outcome, launched: seq<seq<Token>>, waited: nat)
    requires |codes| == |items|
    ensures Validate(template, items).Err? ==>
      outcome == Fail(Validate(template, items).error) && launched == [] && waited == 0
    ensures Validate(template, items).Ok? ==>
      && Commands(template, items) == Ok(launched)
      && |launched| == |codes|
      && JoinedAs(launched, codes, outcome, waited)
  {
    var shape := Validate(template, items);
    if shape.Err? {
      return Fail(shape.error), [], 0;
    }
    launched := LaunchAll(template, items, shape.value == Strings);
    CommandsContents(template, items);
    outcome, waited := WaitAll(launched, codes);
  }

  /** One failing child among succeeding ones: the failure names the command of
      the `false` child, and the third child is never waited on. */
  method FalseChildReported() returns (outcome: Outcome, waited: nat)
    ensures outcome == Fail(CalledProcessError(1, [Lit("false")]))
    ensures waited == 2
  {
    var items := [Str("true"), Str("false"), Str("true")];
    assert Validate([Dummy], items) == Ok(Strings);
    var codes := [0, 1, 0];
    assert codes[1] != 0;
    var launched;
    outcome, launched, waited := Subprocesses([Dummy], items, codes);
    assert launched[1] == SubstituteAll([Dummy], "false") == [Lit("false")];
    assert waited - 1 != 0 && !(waited - 1 > 1);
  }
}
