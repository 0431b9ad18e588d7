/** Building one command per item: copy the template (`template[:]`) and
    overwrite its placeholder positions in place (dpipe.py:96-108). */
module Build {
  import opened Templates
  import opened Outcomes
  import opened Sanity

  /** The command built for one item: a string fills every placeholder, a tuple
      fills them in order. */
  function BuildCommand(t: seq<Token>, item: Item): seq<Token>
    requires !item.Other?
  {
    if item.Str? then SubstituteAll(t, item.s) else Substitute(t, item.fields)
  }

  /** The commands `subprocesses` would launch, one per item in iteration order,
      or the sanity-check error raised before any is built. */
  function Commands(t: seq<Token>, items: seq<Item>): Result<seq<seq<Token>>>
  {
    match Validate(t, items)
    case Err(e) => Err(e)
    case Ok(_) =>
      assert forall i :: 0 <= i < |items| ==> !items[i].Other?;
      Ok(seq(|items|, i requires 0 <= i < |items| => BuildCommand(t, items[i])))
  }

  /** The string loop body (dpipe.py:99-101): copy the template and write `item`
      at every position listed in `dummyIndices`. */
  method FillFromString(template: seq<Token>, dummyIndices: seq<nat>, item: string)
    returns (command: seq<Token>)
    requires dummyIndices == DummyIndices(template)
    ensures command == SubstituteAll(template, item)
  {
    ghost var values := seq(|dummyIndices|, _ => item);
    var cmd := new Token[|template|](i requires 0 <= i < |template| => template[i]);
    assert cmd[..] == template;
    for j := 0 to |dummyIndices|
      invariant cmd[..] == Overwrite(template, dummyIndices, values, j)
    {
      cmd[dummyIndices[j]] := Lit(item);
    }
    command := cmd[..];
    OverwriteAllDummies(template, item);
  }

  /** The tuple loop body (dpipe.py:105-107): copy the template and, pairing the
      tuple with `dummyIndices` as `zip` does, write its k-th field at the k-th
      placeholder position. */
  method FillFromTuple(template: seq<Token>, dummyIndices: seq<nat>, item: seq<string>)
    returns (command: seq<Token>)
    requires dummyIndices == DummyIndices(template)
    ensures command == Substitute(template, item)
  {
    var cmd := new Token[|template|](i requires 0 <= i < |template| => template[i]);
    assert cmd[..] == template;
    var n := if |item| < |dummyIndices| then |item| else |dummyIndices|;
    for j := 0 to n
      invariant cmd[..] == Overwrite(template, dummyIndices, item, j)
    {
      cmd[dummyIndices[j]] := Lit(item[j]);
    }
    command := cmd[..];
    OverwriteZip(template, item);
  }

  /** The value an item supplies to its k-th placeholder. */
  function ValueAt(item: Item, k: nat): string
    requires item.Str? || (item.Tup? && k < |item.fields|)
  {
    if item.Str? then item.s else item.fields[k]
  }

  /** The command built for an accepted item is as long as the template, keeps
      every literal, leaves no placeholder, and holds the item's k-th value at
      the k-th placeholder position. */
  lemma BuildCommandContents(t: seq<Token>, item: Item)
    requires (item.Str? && DummyCount(t) == 1) || (item.Tup? && |item.fields| == DummyCount(t))
    ensures var c := BuildCommand(t, item);
      && |c| == |t|
      && (forall p :: 0 <= p < |t| && t[p].Lit? ==> c[p] == t[p])
      && (forall p :: 0 <= p < |t| ==> c[p].Lit?)
      && (forall k :: 0 <= k < DummyCount(t) ==> c[DummyIndices(t)[k]] == Lit(ValueAt(item, k)))
  {
    if item.Str? {
      DummyIndicesExact(t);
      SubstituteAllAt(t, item.s);
    } else {
      SubstituteComplete(t, item.fields);
    }
  }

  /** One command per item, in iteration order, each as described by
      `BuildCommandContents`. */
  lemma CommandsContents(t: seq<Token>, items: seq<Item>)
    requires Commands(t, items).Ok?
    ensures var cmds := Commands(t, items).value;
      && |cmds| == |items|
      && (forall i :: 0 <= i < |items| ==> |cmds[i]| == |t|)
      && (forall i, p :: 0 <= i < |items| && 0 <= p < |t| && t[p].Lit? ==> cmds[i][p] == t[p])
      && (forall i, p :: 0 <= i < |items| && 0 <= p < |t| ==> cmds[i][p].Lit?)
      && (forall i, k :: 0 <= i < |items| && 0 <= k < DummyCount(t) ==>
            cmds[i][DummyIndices(t)[k]] == Lit(ValueAt(items[i], k)))
  {
    var cmds := Commands(t, items).value;
    forall i | 0 <= i < |items|
      ensures (items[i].Str? && DummyCount(t) == 1) || (items[i].Tup? && |items[i].fields| == DummyCount(t))
    {
    }
    forall i | 0 <= i < |items|
      ensures cmds[i] == BuildCommand(t, items[i])
    {
    }
    forall i | 0 <= i < |items|
      ensures var c := cmds[i];
        && |c| == |t|
        && (forall p :: 0 <= p < |t| && t[p].Lit? ==> c[p] == t[p])
        && (forall p :: 0 <= p < |t| ==> c[p].Lit?)
        && (forall k :: 0 <= k < DummyCount(t) ==> c[DummyIndices(t)[k]] == Lit(ValueAt(items[i], k)))
    {
      BuildCommandContents(t, items[i]);
    }
  }

  /** Each bare string as a one-element tuple. */
  function Wrap(items: seq<Item>): seq<Item>
    requires AllStrings(items)
  {
    seq(|items|, i requires 0 <= i < |items| => Tup([items[i].s]))
  }

  /** A batch of strings gives the same commands, or the same error, as the
      batch of one-element tuples holding them. */
  lemma StringsAsTuples(t: seq<Token>, items: seq<Item>)
    requires AllStrings(items)
    ensures Commands(t, items) == Commands(t, Wrap(items))
  {
    var w := Wrap(items);
    if items == [] {
      assert w == items;
    } else if DummyCount(t) == 1 {
      assert !w[0].Str?;
      assert AllTuples(w) && Uniform(w);
      var a := Commands(t, items).value;
      var b := Commands(t, w).value;
      forall i | 0 <= i < |items|
        ensures a[i] == b[i]
      {
        SubstituteSingle(t, items[i].s);
      }
      assert a == b;
    } else {
      assert Uniform(w);
      assert |w[0].fields| == 1;
    }
  }
}
