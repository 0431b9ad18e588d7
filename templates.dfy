/** Command templates: literal arguments and `Dummy` placeholder slots (dpipe.py:59-60),
    the placeholder count and positions (dpipe.py:79, 89), and the two ways a
    template is filled in (dpipe.py:99-101 and 105-107). */
module Templates {

  /** One element of a template: a literal argument or a placeholder. Any `Dummy`
      instance is a slot, so the marker needs no payload. */
  datatype Token = Lit(arg: string) | Dummy

  /** The number of `Dummy` tokens in `t` (dpipe.py:79). */
  function DummyCount(t: seq<Token>): nat
  {
    if t == [] then 0 else (if t[0].Dummy? then 1 else 0) + DummyCount(t[1..])
  }

  /** Placeholders are counted additively over a concatenation. */
  lemma {:induction false} DummyCountConcat(a: seq<Token>, b: seq<Token>)
    ensures DummyCount(a + b) == DummyCount(a) + DummyCount(b)
  {
    if a == [] {
      assert a + b == b;
    } else {
      assert (a + b)[1..] == a[1..] + b;
      DummyCountConcat(a[1..], b);
    }
  }

  /** Counting the dummies of a non-empty prefix looks at its head, then at the rest. */
  lemma PrefixCountShift(t: seq<Token>)
    requires t != []
    ensures forall m :: 0 <= m < |t| ==>
      DummyCount(t[..m + 1]) == (if t[0].Dummy? then 1 else 0) + DummyCount(t[1..][..m])
  {
    forall m | 0 <= m < |t|
      ensures DummyCount(t[..m + 1]) == (if t[0].Dummy? then 1 else 0) + DummyCount(t[1..][..m])
    {
      assert t[..m + 1][1..] == t[1..][..m];
    }
  }

  /** `dummy_indices`: the positions of the placeholders of `t`, left to right
      (dpipe.py:89); one per placeholder, each inside the template. */
  function DummyIndices(t: seq<Token>): (r: seq<nat>)
    ensures |r| == DummyCount(t)
    ensures forall k :: 0 <= k < |r| ==> r[k] < |t|
    decreases |t|
  {
    if t == [] then []
    else
      var init := t[..|t| - 1];
      assert t == init + [t[|t| - 1]];
      DummyCountConcat(init, [t[|t| - 1]]);
      if t[|t| - 1].Dummy? then DummyIndices(init) + [|t| - 1] else DummyIndices(init)
  }

  /** Every entry of `dummy_indices` is a placeholder position, the entries are
      strictly increasing, and no placeholder position is missed. */
  lemma {:induction false} DummyIndicesExact(t: seq<Token>)
    ensures var r := DummyIndices(t);
      && (forall k :: 0 <= k < |r| ==> t[r[k]].Dummy?)
      && (forall k, l :: 0 <= k < l < |r| ==> r[k] < r[l])
      && (forall i :: 0 <= i < |t| && t[i].Dummy? ==> i in r)
    decreases |t|
  {
    if t != [] {
      var init := t[..|t| - 1];
      var rest := DummyIndices(init);
      var r := DummyIndices(t);
      var last := |t| - 1;
      DummyIndicesExact(init);
      forall k | 0 <= k < |rest|
        ensures r[k] == rest[k] && rest[k] < last && t[rest[k]] == init[rest[k]]
      {
      }
      forall i | 0 <= i < last && t[i].Dummy?
        ensures i in r
      {
        assert init[i] == t[i];
        assert i in rest;
      }
      if t[last].Dummy? {
        assert r == rest + [last];
        assert r[|rest|] == last;
      } else {
        assert r == rest;
      }
    }
  }

  /** The k-th entry of `dummy_indices` is the position of the k-th placeholder:
      exactly k placeholders precede it. */
  lemma {:induction false} DummyIndicesRank(t: seq<Token>)
    ensures forall k :: 0 <= k < |DummyIndices(t)| ==> DummyCount(t[..DummyIndices(t)[k]]) == k
    decreases |t|
  {
    if t != [] {
      var init := t[..|t| - 1];
      var rest := DummyIndices(init);
      DummyIndicesRank(init);
      forall k | 0 <= k < |rest|
        ensures t[..rest[k]] == init[..rest[k]]
      {
      }
      if t[|t| - 1].Dummy? {
        assert t[..|t| - 1] == init;
      }
    }
  }

  /** Reference definition of filling a template from a record: walk `t` left to
      right, keep literals, and write the next unused value at each placeholder;
      once the values run out the remaining placeholders stay (as `zip` stops at
      the shorter operand). */
  function Substitute(t: seq<Token>, values: seq<string>): (c: seq<Token>)
    ensures |c| == |t|
    decreases |t|
  {
    if t == [] then []
    else if t[0].Lit? then [t[0]] + Substitute(t[1..], values)
    else if values == [] then [Dummy] + Substitute(t[1..], values)
    else [Lit(values[0])] + Substitute(t[1..], values[1..])
  }

  /** What `Substitute` puts at position p: the literal of the template, or, at a
      placeholder preceded by n placeholders, the n-th value when there is one. */
  lemma {:induction false} SubstituteAt(t: seq<Token>, values: seq<string>, p: nat)
    requires p < |t|
    ensures Substitute(t, values)[p] ==
      if t[p].Lit? then t[p]
      else if DummyCount(t[..p]) < |values| then Lit(values[DummyCount(t[..p])])
      else Dummy
  {
    if p == 0 {
      assert t[..0] == [];
    } else {
      PrefixCountShift(t);
      assert DummyCount(t[..(p - 1) + 1]) == (if t[0].Dummy? then 1 else 0) + DummyCount(t[1..][..p - 1]);
      if t[0].Lit? || values == [] {
        SubstituteAt(t[1..], values, p - 1);
      } else {
        SubstituteAt(t[1..], values[1..], p - 1);
      }
    }
  }

  /** Filling a template from a bare string: every placeholder receives the string. */
  function SubstituteAll(t: seq<Token>, s: string): (c: seq<Token>)
    ensures |c| == |t|
    decreases |t|
  {
    if t == [] then []
    else (if t[0].Lit? then [t[0]] else [Lit(s)]) + SubstituteAll(t[1..], s)
  }

  /** Filling from a string keeps every literal and puts the string at every placeholder. */
  lemma {:induction false} SubstituteAllAt(t: seq<Token>, s: string)
    ensures forall p :: 0 <= p < |t| ==> SubstituteAll(t, s)[p] == if t[p].Lit? then t[p] else Lit(s)
    decreases |t|
  {
    if t != [] {
      SubstituteAllAt(t[1..], s);
      assert forall p :: 1 <= p < |t| ==> SubstituteAll(t, s)[p] == SubstituteAll(t[1..], s)[p - 1];
    }
  }

  /** Fewer placeholders precede a placeholder than the template holds. */
  lemma PrefixCountBelow(t: seq<Token>, p: nat)
    requires p < |t| && t[p].Dummy?
    ensures DummyCount(t[..p]) < DummyCount(t)
  {
    assert t == t[..p] + t[p..];
    DummyCountConcat(t[..p], t[p..]);
    assert t[p..][0].Dummy?;
  }

  /** A record with one value per placeholder leaves no placeholder behind, keeps
      every literal, and puts its k-th value at the k-th placeholder position. */
  lemma SubstituteComplete(t: seq<Token>, values: seq<string>)
    requires |values| == DummyCount(t)
    ensures forall p :: 0 <= p < |t| ==> Substitute(t, values)[p].Lit?
    ensures forall p :: 0 <= p < |t| && t[p].Lit? ==> Substitute(t, values)[p] == t[p]
    ensures forall k :: 0 <= k < |values| ==> Substitute(t, values)[DummyIndices(t)[k]] == Lit(values[k])
  {
    forall p | 0 <= p < |t|
      ensures Substitute(t, values)[p].Lit?
      ensures t[p].Lit? ==> Substitute(t, values)[p] == t[p]
    {
      SubstituteAt(t, values, p);
      if t[p].Dummy? {
        PrefixCountBelow(t, p);
      }
    }
    DummyIndicesExact(t);
    DummyIndicesRank(t);
    forall k | 0 <= k < |values|
      ensures Substitute(t, values)[DummyIndices(t)[k]] == Lit(values[k])
    {
      SubstituteAt(t, values, DummyIndices(t)[k]);
    }
  }

  /** With exactly one placeholder, filling from a string equals filling from the
      one-element record holding it. */
  lemma SubstituteSingle(t: seq<Token>, s: string)
    requires DummyCount(t) == 1
    ensures SubstituteAll(t, s) == Substitute(t, [s])
  {
    SubstituteAllAt(t, s);
    forall p | 0 <= p < |t|
      ensures SubstituteAll(t, s)[p] == Substitute(t, [s])[p]
    {
      SubstituteAt(t, [s], p);
      if t[p].Dummy? {
        PrefixCountBelow(t, p);
      }
    }
  }

  /** The in-place loops of `subprocesses` as a value: `t` after writing
      `Lit(values[k])` at position `r[k]` for k = 0, ..., j-1, in that order. */
  function Overwrite(t: seq<Token>, r: seq<nat>, values: seq<string>, j: nat): (c: seq<Token>)
    requires j <= |r| && j <= |values|
    requires forall k :: 0 <= k < |r| ==> r[k] < |t|
    ensures |c| == |t|
  {
    if j == 0 then t else Overwrite(t, r, values, j - 1)[r[j - 1] := Lit(values[j - 1])]
  }

  /** Writing the first j values over the placeholder positions of `t`: the k-th
      placeholder holds the k-th value for k < j and is still a placeholder
      otherwise; literals are untouched. */
  lemma {:induction false} OverwriteAt(t: seq<Token>, values: seq<string>, j: nat)
    requires j <= DummyCount(t) && j <= |values|
    ensures var c := Overwrite(t, DummyIndices(t), values, j);
      (forall k :: 0 <= k < DummyCount(t) ==> c[DummyIndices(t)[k]] == if k < j then Lit(values[k]) else Dummy) &&
      (forall p :: 0 <= p < |t| && t[p].Lit? ==> c[p] == t[p])
  {
    var r := DummyIndices(t);
    DummyIndicesExact(t);
    if j > 0 {
      OverwriteAt(t, values, j - 1);
      var prev := Overwrite(t, r, values, j - 1);
      var c := Overwrite(t, r, values, j);
      assert c == prev[r[j - 1] := Lit(values[j - 1])];
      forall k | 0 <= k < |r|
        ensures c[r[k]] == if k < j then Lit(values[k]) else Dummy
      {
        if k != j - 1 {
          assert r[k] != r[j - 1] by {
            if k < j - 1 { assert r[k] < r[j - 1]; } else { assert r[j - 1] < r[k]; }
          }
        }
      }
      forall p | 0 <= p < |t| && t[p].Lit?
        ensures c[p] == t[p]
      {
        assert p != r[j - 1];
      }
    }
  }

  /** Writing `s` at every placeholder position gives the string-filled template. */
  lemma OverwriteAllDummies(t: seq<Token>, s: string)
    ensures Overwrite(t, DummyIndices(t), seq(DummyCount(t), _ => s), DummyCount(t)) == SubstituteAll(t, s)
  {
    var r := DummyIndices(t);
    var values := seq(DummyCount(t), _ => s);
    var c := Overwrite(t, r, values, |r|);
    OverwriteAt(t, values, |r|);
    DummyIndicesExact(t);
    SubstituteAllAt(t, s);
    forall p | 0 <= p < |t|
      ensures c[p] == SubstituteAll(t, s)[p]
    {
      if t[p].Dummy? {
        var k :| 0 <= k < |r| && r[k] == p;
      }
    }
  }

  /** Writing the fields of a record at the placeholder positions pairwise, up to
      the shorter of the two, gives the record-filled template. */
  lemma OverwriteZip(t: seq<Token>, values: seq<string>)
    ensures var n := if |values| < DummyCount(t) then |values| else DummyCount(t);
      Overwrite(t, DummyIndices(t), values, n) == Substitute(t, values)
  {
    var r := DummyIndices(t);
    var n := if |values| < DummyCount(t) then |values| else DummyCount(t);
    var c := Overwrite(t, r, values, n);
    OverwriteAt(t, values, n);
    DummyIndicesExact(t);
    DummyIndicesRank(t);
    forall p | 0 <= p < |t|
      ensures c[p] == Substitute(t, values)[p]
    {
      SubstituteAt(t, values, p);
      if t[p].Dummy? {
        var k :| 0 <= k < |r| && r[k] == p;
      }
    }
  }
}
