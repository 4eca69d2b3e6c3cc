/**
 * Merging display equations into the element list. Word paragraphs that
 * hold only an equation are not seen by the document walk, so the equations
 * found by the equation scan are put back by paragraph index: paragraphs,
 * headings and lists are counted from one, and the equations of paragraph
 * index `k` go right before the element whose count exceeds `k`, that is,
 * before the `(k+1)`-th counted element; those with no such element go at
 * the end, in ascending index order.
 */
module DocumentIo {
  import opened Models

  type EquationMap = map<nat, seq<DocumentElement>>

  /** The elements that advance the paragraph counter. */
  predicate Counts(e: DocumentElement)
  {
    e.Paragraph? || e.Heading? || e.List?
  }

  /** The number of counted elements. */
  function CountOf(elements: seq<DocumentElement>): nat
  {
    if elements == [] then 0
    else CountOf(elements[..|elements| - 1]) + (if Counts(elements[|elements| - 1]) then 1 else 0)
  }

  /** The equations of index `k`, or none. */
  function At(m: EquationMap, k: nat): seq<DocumentElement>
  {
    if k in m then m[k] else []
  }

  /** `k` is the least element of `s`. */
  predicate IsMin(k: nat, s: set<nat>)
  {
    forall j :: j in s ==> k <= j
  }

  /** `k` is the greatest element of `s`. */
  ghost predicate IsMax(k: nat, s: set<nat>)
  {
    forall j :: j in s ==> j <= k
  }

  ghost function MaxKey(keys: set<nat>): (r: nat)
    requires keys != {}
    ensures r in keys && IsMax(r, keys)
  {
    var k :| k in keys;
    if keys == {k} then k
    else
      var r := MaxKey(keys - {k});
      assert forall j :: j in keys ==> j == k || j in keys - {k};
      if k > r then k else r
  }

  /** One more than the largest index, or zero. */
  ghost function Bound(m: EquationMap): (b: nat)
    ensures AllBelow(m, b)
  {
    if m == map[] then 0 else MaxKey(m.Keys) + 1
  }

  /** The equations of all indices `>= c`, in ascending index order. */
  function Trailing(m: EquationMap, c: nat): seq<DocumentElement>
    decreases Bound(m) - c
  {
    if AllBelow(m, c) then []
    else At(m, c) + Trailing(m, c + 1)
  }

  /** Every index is below `c`. */
  predicate AllBelow(m: EquationMap, c: nat)
  {
    forall k :: k in m ==> k < c
  }

  /** The elements with the equations of each counted element put before it. */
  function Spliced(elements: seq<DocumentElement>, m: EquationMap): seq<DocumentElement>
  {
    if elements == [] then []
    else
      var init := elements[..|elements| - 1];
      var e := elements[|elements| - 1];
      Spliced(init, m) + (if Counts(e) then At(m, CountOf(init)) else []) + [e]
  }

  /** The result of `merge_display_equations`. */
  function Merged(elements: seq<DocumentElement>, m: EquationMap): seq<DocumentElement>
  {
    Spliced(elements, m) + Trailing(m, CountOf(elements))
  }

  predicate Increasing(keys: seq<nat>)
  {
    forall i, j :: 0 <= i < j < |keys| ==> keys[i] < keys[j]
  }

  /** The equations of the given indices, one index after the other. */
  function Gather(m: EquationMap, keys: seq<nat>): seq<DocumentElement>
  {
    if keys == [] then [] else At(m, keys[0]) + Gather(m, keys[1..])
  }

  // ---------------------------------------------------------------------------
  // The merge loop
  // ---------------------------------------------------------------------------

  /** The map's indices, sorted. */
  method SortedKeys(m: EquationMap) returns (keys: seq<nat>)
    ensures Increasing(keys)
    ensures forall k :: k in keys <==> k in m
  {
    keys := [];
    var rest := m.Keys;
    while rest != {}
      invariant Splits(m, keys, rest)
      decreases |rest|
    {
      MinExists(rest);
      var k :| k in rest && IsMin(k, rest);
      SplitsStep(m, keys, rest, k);
      keys := keys + [k];
      rest := rest - {k};
    }
  }

  /** The sorted indices taken so far, and those left, all larger. */
  ghost predicate Splits(m: EquationMap, keys: seq<nat>, rest: set<nat>)
  {
    && Increasing(keys)
    && (forall k :: k in m <==> k in keys || k in rest)
    && (forall i, k :: 0 <= i < |keys| && k in rest ==> keys[i] < k)
  }

  lemma SplitsStep(m: EquationMap, keys: seq<nat>, rest: set<nat>, k: nat)
    requires Splits(m, keys, rest) && k in rest && IsMin(k, rest)
    ensures Splits(m, keys + [k], rest - {k})
  {
    var keys' := keys + [k];
    forall j | j in keys' ensures j in keys || j == k {
      var i :| 0 <= i < |keys'| && keys'[i] == j;
      if i < |keys| { assert keys[i] == j; }
    }
    forall j | j in keys ensures j in keys' {
      var i :| 0 <= i < |keys| && keys[i] == j;
      assert keys'[i] == j;
    }
    assert k in keys' by { assert keys'[|keys|] == k; }
  }

  lemma MinExists(s: set<nat>)
    requires s != {}
    ensures exists k :: k in s && IsMin(k, s)
  {
    var k :| k in s;
    if s != {k} {
      MinExists(s - {k});
      var r :| r in s - {k} && IsMin(r, s - {k});
      assert forall j :: j in s ==> j == k || j in s - {k};
      if k < r {
        assert IsMin(k, s);
      } else {
        assert IsMin(r, s);
      }
    } else {
      assert forall j :: j in s ==> j == k;
      assert IsMin(k, s);
    }
  }

  /** `merge_display_equations`: counts paragraphs, headings and lists, puts
      each waiting equation list before the first counted element whose count
      exceeds its index, and appends those left over. */
  method MergeDisplayEquations(elements: seq<DocumentElement>, m: EquationMap) returns (result: seq<DocumentElement>)
    ensures result == Merged(elements, m)
  {
    if m == map[] {
      MergedEmpty(elements);
      return elements;
    }
    var waiting := SortedKeys(m);
    var counter;
    result, counter, waiting := InsertBefore(elements, m, waiting);
    GatherTrailing(m, waiting, counter);
    result := AppendRemaining(result, m, waiting);
  }

  /** The element loop: counts paragraphs, headings and lists, and puts the
      equations whose index falls below the count before the counted element. */
  method InsertBefore(elements: seq<DocumentElement>, m: EquationMap, keys: seq<nat>)
      returns (result: seq<DocumentElement>, counter: nat, waiting: seq<nat>)
    requires Waiting(keys, m, 0)
    ensures result == Spliced(elements, m) && counter == CountOf(elements)
    ensures Waiting(waiting, m, counter)
  {
    result, counter, waiting := [], 0, keys;
    var i := 0;
    while i < |elements|
      invariant i <= |elements|
      invariant result == Spliced(elements[..i], m) && counter == CountOf(elements[..i])
      invariant Waiting(waiting, m, counter)
    {
      var e := elements[i];
      SplicedNext(elements, i, m);
      if Counts(e) {
        counter := counter + 1;
        var due;
        due, waiting := TakeDue(waiting, m, counter);
        result := result + due;
      }
      result := result + [e];
      i := i + 1;
    }
    assert elements[..i] == elements;
  }

  /** The final loop: the equations of the indices still waiting, in order. */
  method AppendRemaining(front: seq<DocumentElement>, m: EquationMap, waiting: seq<nat>) returns (result: seq<DocumentElement>)
    ensures result == front + Gather(m, waiting)
  {
    result := front;
    var rest := waiting;
    while rest != []
      invariant result + Gather(m, rest) == front + Gather(m, waiting)
      decreases |rest|
    {
      result := result + At(m, rest[0]);
      rest := rest[1..];
    }
  }

  lemma SplicedNext(elements: seq<DocumentElement>, i: nat, m: EquationMap)
    requires i < |elements|
    ensures CountOf(elements[..i + 1]) == CountOf(elements[..i]) + (if Counts(elements[i]) then 1 else 0)
    ensures Spliced(elements[..i + 1], m)
         == Spliced(elements[..i], m) + (if Counts(elements[i]) then At(m, CountOf(elements[..i])) else []) + [elements[i]]
  {
    assert elements[..i + 1][..i] == elements[..i];
  }

  /** The waiting indices are sorted and are exactly those `>= counter`. */
  ghost predicate Waiting(waiting: seq<nat>, m: EquationMap, counter: nat)
  {
    Increasing(waiting) && forall k :: k in waiting <==> k in m && k >= counter
  }

  /** The inner loop: removes the waiting indices below the new count, taking
      their equations (only index `counter - 1` can be waiting). */
  method TakeDue(waiting: seq<nat>, m: EquationMap, counter: nat) returns (due: seq<DocumentElement>, rest: seq<nat>)
    requires counter >= 1 && Waiting(waiting, m, counter - 1)
    ensures due == At(m, counter - 1) && Waiting(rest, m, counter)
  {
    due, rest := [], waiting;
    while rest != [] && rest[0] < counter
      invariant Increasing(rest) && forall k :: k in rest ==> k in m && k >= counter - 1
      invariant forall k :: k in m && k >= counter ==> k in rest
      invariant rest == waiting ==> due == []
      invariant rest != waiting ==> due == At(m, counter - 1) && (rest != [] ==> rest[0] >= counter)
      decreases |rest|
    {
      assert rest[0] in rest;
      due := due + At(m, rest[0]);
      rest := TailAbove(rest, counter - 1);
    }
    if rest == waiting && counter - 1 in m {
      assert counter - 1 in waiting;
    }
    WaitingAfterDue(rest, m, counter);
  }

  /** Dropping the least index `c` of a sorted sequence leaves only larger ones. */
  function TailAbove(keys: seq<nat>, c: nat): (r: seq<nat>)
    requires keys != [] && keys[0] == c && Increasing(keys)
    ensures r == keys[1..] && Increasing(r)
    ensures forall k :: k in r <==> k in keys && k > c
  {
    var r := keys[1..];
    assert forall k :: k in keys ==> k == c || k in r by {
      forall k | k in keys ensures k == c || k in r {
        var j :| 0 <= j < |keys| && keys[j] == k;
        if j > 0 { assert r[j - 1] == k; }
      }
    }
    assert forall k :: k in r ==> k in keys && k > c by {
      forall k | k in r ensures k in keys && k > c {
        var j :| 0 <= j < |r| && r[j] == k;
        assert keys[j + 1] == k;
      }
    }
    r
  }

  lemma WaitingAfterDue(rest: seq<nat>, m: EquationMap, counter: nat)
    requires Increasing(rest) && forall k :: k in rest ==> k in m
    requires forall k :: k in m && k >= counter ==> k in rest
    requires rest != [] ==> rest[0] >= counter
    ensures Waiting(rest, m, counter)
  {
    forall k | k in rest ensures k >= counter {
      var i :| 0 <= i < |rest| && rest[i] == k;
      assert rest[0] <= rest[i];
    }
  }

  // ---------------------------------------------------------------------------
  // Properties
  // ---------------------------------------------------------------------------

  /** Sorted indices gather exactly the trailing equations. */
  lemma {:induction false} GatherTrailing(m: EquationMap, keys: seq<nat>, c: nat)
    requires Waiting(keys, m, c)
    ensures Gather(m, keys) == Trailing(m, c)
    decreases Bound(m) - c
  {
    if keys == [] {
      NothingWaiting(m, c);
    } else {
      var next := GatherStep(m, keys, c);
      GatherTrailing(m, next, c + 1);
    }
  }

  lemma NothingWaiting(m: EquationMap, c: nat)
    requires Waiting([], m, c)
    ensures Trailing(m, c) == [] && Gather(m, []) == []
  {
    forall k | k in m ensures k < c {
      assert k >= c ==> k in [];
    }
  }

  /** One counter value of the trailing equations against one key. */
  lemma GatherStep(m: EquationMap, keys: seq<nat>, c: nat) returns (next: seq<nat>)
    requires Waiting(keys, m, c) && keys != []
    ensures c < Bound(m) && Waiting(next, m, c + 1)
    ensures Gather(m, keys) == At(m, c) + Gather(m, next)
    ensures Trailing(m, c) == At(m, c) + Trailing(m, c + 1)
  {
    assert keys[0] in keys;
    WaitingNext(keys, m, c);
    TrailingStep(m, c);
    next := if keys[0] == c then keys[1..] else keys;
  }


  lemma WaitingNext(keys: seq<nat>, m: EquationMap, c: nat)
    requires Waiting(keys, m, c) && keys != []
    ensures keys[0] != c ==> c !in m
    ensures Waiting(if keys[0] == c then keys[1..] else keys, m, c + 1)
  {
    assert keys[0] in keys;
    forall k | k in keys ensures k == keys[0] || (k in keys[1..] && k > keys[0]) {
      var j :| 0 <= j < |keys| && keys[j] == k;
      if j > 0 { assert keys[1..][j - 1] == k; }
    }
    forall k | k in keys[1..] ensures k in keys && k > keys[0] {
      var j :| 0 <= j < |keys[1..]| && keys[1..][j] == k;
      assert keys[j + 1] == k;
    }
  }

  /** An empty equation map leaves the elements unchanged. */
  lemma {:induction false} MergedEmpty(elements: seq<DocumentElement>)
    ensures Merged(elements, map[]) == elements
  {
    SplicedEmpty(elements);
  }

  lemma {:induction false} SplicedEmpty(elements: seq<DocumentElement>)
    ensures Spliced(elements, map[]) == elements
  {
    if elements != [] {
      SplicedEmpty(elements[..|elements| - 1]);
    }
  }

  /** The equations of a counted element's index follow at the next count. */
  lemma TrailingStep(m: EquationMap, c: nat)
    ensures Trailing(m, c) == At(m, c) + Trailing(m, c + 1)
  {
    if AllBelow(m, c) {
      assert c !in m;
    }
  }

  /** Splicing a concatenation splices the second part from the first's count. */
  lemma {:induction false} SplicedAppend(a: seq<DocumentElement>, b: seq<DocumentElement>, m: EquationMap)
    ensures CountOf(a + b) == CountOf(a) + CountOf(b)
    ensures Spliced(a + b, m) == Spliced(a, m) + SplicedFrom(b, m, CountOf(a))
    decreases |b|
  {
    if b == [] {
      assert a + b == a;
    } else {
      var b' := b[..|b| - 1];
      assert (a + b)[..|a + b| - 1] == a + b';
      SplicedAppend(a, b', m);
    }
  }

  /** `Spliced` for a part whose counting starts at `c`. */
  function SplicedFrom(elements: seq<DocumentElement>, m: EquationMap, c: nat): seq<DocumentElement>
  {
    if elements == [] then []
    else
      var init := elements[..|elements| - 1];
      var e := elements[|elements| - 1];
      SplicedFrom(init, m, c) + (if Counts(e) then At(m, c + CountOf(init)) else []) + [e]
  }

  /** The equations of index `k` stand right before the `(k+1)`-th counted
      element: for a counted element `e` after `k` counted ones, the output
      holds `At(m, k) + [e]` at the place of `e`. */
  lemma Placement(a: seq<DocumentElement>, e: DocumentElement, b: seq<DocumentElement>, m: EquationMap)
    requires Counts(e)
    ensures Merged(a + [e] + b, m)
         == Spliced(a, m) + At(m, CountOf(a)) + [e] + SplicedFrom(b, m, CountOf(a) + 1) + Trailing(m, CountOf(a + [e] + b))
  {
    SplicedAppend(a + [e], b, m);
    assert (a + [e])[..|a + [e]| - 1] == a;
  }

  /** Every counted element of `SplicedFrom` adds its count's equations and
      every element itself. */
  lemma {:induction false} SplicedFromLength(elements: seq<DocumentElement>, m: EquationMap, c: nat)
    ensures |SplicedFrom(elements, m, c)| + |Trailing(m, c + CountOf(elements))| == |elements| + |Trailing(m, c)|
  {
    if elements != [] {
      var init := elements[..|elements| - 1];
      SplicedFromLength(init, m, c);
      if Counts(elements[|elements| - 1]) {
        TrailingStep(m, c + CountOf(init));
      }
    }
  }

  lemma {:induction false} SplicedIsFromZero(elements: seq<DocumentElement>, m: EquationMap)
    ensures Spliced(elements, m) == SplicedFrom(elements, m, 0)
  {
    if elements != [] {
      SplicedIsFromZero(elements[..|elements| - 1], m);
    }
  }

  /** The output holds one element per input element and one per equation. */
  lemma MergedLength(elements: seq<DocumentElement>, m: EquationMap)
    ensures |Merged(elements, m)| == |elements| + |Trailing(m, 0)|
  {
    SplicedIsFromZero(elements, m);
    SplicedFromLength(elements, m, 0);
  }

  /** `Trailing(m, 0)` is every entry once, in ascending index order. */
  lemma AllEquations(m: EquationMap, keys: seq<nat>)
    requires Increasing(keys) && forall k :: k in keys <==> k in m
    ensures Trailing(m, 0) == Gather(m, keys)
  {
    GatherTrailing(m, keys, 0);
  }

  /** `a` is `b` with some elements dropped, matched from the front. */
  predicate Subsequence(a: seq<DocumentElement>, b: seq<DocumentElement>)
  {
    if a == [] then true
    else if b == [] then false
    else if a[0] == b[0] then Subsequence(a[1..], b[1..])
    else Subsequence(a, b[1..])
  }

  lemma {:induction false} SubsequenceExtend(a: seq<DocumentElement>, b: seq<DocumentElement>, extra: seq<DocumentElement>)
    requires Subsequence(a, b)
    ensures Subsequence(a, b + extra)
  {
    if a != [] {
      assert (b + extra)[0] == b[0] && (b + extra)[1..] == b[1..] + extra;
      if a[0] == b[0] {
        SubsequenceExtend(a[1..], b[1..], extra);
      } else {
        SubsequenceExtend(a, b[1..], extra);
      }
    }
  }

  lemma {:induction false} SubsequenceLast(b: seq<DocumentElement>, x: DocumentElement)
    ensures Subsequence([x], b + [x])
  {
    assert (b + [x])[0] == (if b == [] then x else b[0]);
    if b != [] && b[0] != x {
      assert (b + [x])[1..] == b[1..] + [x];
      SubsequenceLast(b[1..], x);
    } else {
      assert [x][1..] == [];
    }
  }

  lemma {:induction false} SubsequenceSnoc(a: seq<DocumentElement>, b: seq<DocumentElement>, x: DocumentElement)
    requires Subsequence(a, b)
    ensures Subsequence(a + [x], b + [x])
  {
    if a == [] {
      assert a + [x] == [x];
      SubsequenceLast(b, x);
    } else {
      assert (a + [x])[0] == a[0] && (a + [x])[1..] == a[1..] + [x];
      assert (b + [x])[0] == b[0] && (b + [x])[1..] == b[1..] + [x];
      if a[0] == b[0] {
        SubsequenceSnoc(a[1..], b[1..], x);
      } else {
        SubsequenceSnoc(a, b[1..], x);
      }
    }
  }

  /** The input elements stand in the output in their order. */
  lemma {:induction false} SplicedKeepsElements(elements: seq<DocumentElement>, m: EquationMap)
    ensures Subsequence(elements, Spliced(elements, m))
  {
    if elements != [] {
      var init := elements[..|elements| - 1];
      var e := elements[|elements| - 1];
      var front := Spliced(init, m) + (if Counts(e) then At(m, CountOf(init)) else []);
      SplicedKeepsElements(init, m);
      SubsequenceExtend(init, Spliced(init, m), if Counts(e) then At(m, CountOf(init)) else []);
      SubsequenceSnoc(init, front, e);
      assert init + [e] == elements;
    }
  }

  lemma MergedKeepsElements(elements: seq<DocumentElement>, m: EquationMap)
    ensures Subsequence(elements, Merged(elements, m))
  {
    SplicedKeepsElements(elements, m);
    SubsequenceExtend(elements, Spliced(elements, m), Trailing(m, CountOf(elements)));
  }

  /** An element that is not counted takes no equations before it. */
  lemma Uncounted(a: seq<DocumentElement>, e: DocumentElement, m: EquationMap)
    requires !Counts(e)
    ensures Spliced(a + [e], m) == Spliced(a, m) + [e]
    ensures CountOf(a + [e]) == CountOf(a)
  {
    assert (a + [e])[..|a + [e]| - 1] == a;
  }

  lemma SplicedExample(p: DocumentElement, q: DocumentElement, t: DocumentElement, m: EquationMap)
    requires p.Paragraph? && q.Paragraph? && t.Table?
    ensures CountOf([p, t, q]) == 2
    ensures Spliced([p, t, q], m) == At(m, 0) + [p, t] + At(m, 1) + [q]
  {
    var el := [p, t, q];
    assert el[..2][..1] == [p] && el[..2] == [p, t] && el[..1] == [p] && [p][..0] == [];
    assert CountOf([p]) == 1 && CountOf([p, t]) == 1;
    assert Spliced([p], m) == At(m, 0) + [p];
    assert Spliced([p, t], m) == At(m, 0) + [p] + [t];
  }

  /** An equation of index 1 goes before the second paragraph, past a table. */
  lemma MergeBeforeExample(p: DocumentElement, q: DocumentElement, t: DocumentElement, eq: DocumentElement)
    requires p.Paragraph? && q.Paragraph? && t.Table?
    ensures Merged([p, t, q], map[1 := [eq]]) == [p, t, eq, q]
  {
    var m := map[1 := [eq]];
    SplicedExample(p, q, t, m);
    assert Trailing(m, 2) == [] by { assert AllBelow(m, 2); }
  }

  /** One of an index beyond the counted elements goes at the end. */
  lemma MergeAfterExample(p: DocumentElement, q: DocumentElement, t: DocumentElement, eq: DocumentElement)
    requires p.Paragraph? && q.Paragraph? && t.Table?
    ensures Merged([p, t, q], map[5 := [eq]]) == [p, t, q, eq]
  {
    var m := map[5 := [eq]];
    SplicedExample(p, q, t, m);
    assert 5 in m && !AllBelow(m, 5) && !AllBelow(m, 4) && !AllBelow(m, 3) && !AllBelow(m, 2);
    assert Trailing(m, 6) == [] by { assert AllBelow(m, 6); }
    assert Trailing(m, 2) == Trailing(m, 3) == Trailing(m, 4) == Trailing(m, 5) == [eq];
  }
}
