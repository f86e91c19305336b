/** What changed between two lists of vbuckets, found by walking both at once. */
module VbDelta {

  type Vbs = seq<nat>

  predicate Sorted(s: Vbs) { forall i, j :: 0 <= i < j < |s| ==> s[i] <= s[j] }

  datatype Delta = Delta(removed: Vbs, added: Vbs)

  /** Walks both lists from the front. */
  function Compare(a: Vbs, b: Vbs): Delta
    decreases |a| + |b|
  {
    if a == [] || b == [] then Delta(a, b)
    else if a[0] == b[0] then Compare(a[1..], b[1..])
    else if a[0] > b[0] then
      var d := Compare(a, b[1..]);
      Delta(d.removed, [b[0]] + d.added)
    else
      var d := Compare(a[1..], b);
      Delta([a[0]] + d.removed, d.added)
  }

  // -------------------------------------------------------------------------
  // Sorting

  function Insert(x: nat, s: Vbs): Vbs {
    if s == [] || x <= s[0] then [x] + s else [s[0]] + Insert(x, s[1..])
  }

  /** Stands for the library's sort: the sorted rearrangement of a list is unique. */
  function Sort(s: Vbs): Vbs { if s == [] then [] else Insert(s[0], Sort(s[1..])) }

  lemma HeadCount(x: nat, s: Vbs, y: nat)
    ensures multiset([x] + s)[y] == multiset(s)[y] + (if x == y then 1 else 0)
  {
    assert multiset([x] + s) == multiset{x} + multiset(s);
  }

  lemma SplitCount(s: Vbs, y: nat)
    requires s != []
    ensures multiset(s)[y] == multiset(s[1..])[y] + (if s[0] == y then 1 else 0)
  {
    assert s == [s[0]] + s[1..];
    HeadCount(s[0], s[1..], y);
  }

  lemma Prepended(x: nat, s: Vbs)
    requires Sorted(s) && forall y :: y in s ==> x <= y
    ensures Sorted([x] + s)
  {
    assert forall k :: 0 <= k < |s| ==> s[k] in s;
  }

  lemma {:induction false} InsertCount(x: nat, s: Vbs, y: nat)
    ensures multiset(Insert(x, s))[y] == multiset(s)[y] + (if x == y then 1 else 0)
  {
    HeadCount(x, s, y);
    if s != [] && x > s[0] {
      InsertCount(x, s[1..], y);
      HeadCount(s[0], Insert(x, s[1..]), y);
      SplitCount(s, y);
    }
  }

  lemma {:induction false} InsertSorted(x: nat, s: Vbs)
    requires Sorted(s)
    ensures Sorted(Insert(x, s))
  {
    if s == [] || x <= s[0] {
      Prepended(x, s);
    } else {
      var rest := Insert(x, s[1..]);
      InsertSorted(x, s[1..]);
      forall y | y in rest ensures s[0] <= y {
        InsertCount(x, s[1..], y);
        assert y in multiset(rest);
      }
      Prepended(s[0], rest);
    }
  }

  lemma {:induction false} SortSorts(s: Vbs)
    ensures Sorted(Sort(s)) && multiset(Sort(s)) == multiset(s)
  {
    if s != [] {
      SortSorts(s[1..]);
      InsertSorted(s[0], Sort(s[1..]));
      forall y ensures multiset(Sort(s))[y] == multiset(s)[y] {
        InsertCount(s[0], Sort(s[1..]), y);
        SplitCount(s, y);
      }
    }
  }

  // -------------------------------------------------------------------------
  // The loop

  lemma {:induction false} CompareSteps(a: Vbs, b: Vbs, i: nat, j: nat)
    requires i < |a| && j < |b|
    ensures var d := Compare(a[i..], b[j..]);
            if a[i] == b[j] then d == Compare(a[i + 1..], b[j + 1..])
            else if a[i] > b[j] then var e := Compare(a[i..], b[j + 1..]); d == Delta(e.removed, [b[j]] + e.added)
            else var e := Compare(a[i + 1..], b[j..]); d == Delta([a[i]] + e.removed, e.added)
  {
    assert a[i..][1..] == a[i + 1..];
    assert b[j..][1..] == b[j + 1..];
  }

  /** Sorts the caller's list in place. */
  method SortUint16List(list: array<nat>)
    modifies list
    ensures list[..] == Sort(old(list[..]))
    ensures Sorted(list[..]) && multiset(list[..]) == multiset(old(list[..]))
  {
    var sorted := Sort(list[..]);
    SortSorts(list[..]);
    SameLength(sorted, list[..]);
    for i := 0 to list.Length
      invariant list[..i] == sorted[..i]
    {
      list[i] := sorted[i];
    }
    assert list[..] == sorted;
  }

  lemma SameLength(a: Vbs, b: Vbs)
    requires multiset(a) == multiset(b)
    ensures |a| == |b|
  {
    assert |multiset(a)| == |a| && |multiset(b)| == |b|;
  }

  /** The walk on two lists as they are. */
  method Walk(a: Vbs, b: Vbs) returns (removed: Vbs, added: Vbs)
    ensures Delta(removed, added) == Compare(a, b)
  {
    removed, added := [], [];
    var i, j := 0, 0;
    ghost var rest := Compare(a[i..], b[j..]);
    assert a[0..] == a && b[0..] == b;
    while i < |a| && j < |b|
      invariant 0 <= i <= |a| && 0 <= j <= |b|
      invariant rest == Compare(a[i..], b[j..])
      invariant Compare(a, b).removed == removed + rest.removed
      invariant Compare(a, b).added == added + rest.added
      decreases |a| - i + |b| - j
    {
      CompareSteps(a, b, i, j);
      if a[i] == b[j] {
        i := i + 1;
        j := j + 1;
      } else if a[i] > b[j] {
        added := added + [b[j]];
        j := j + 1;
      } else {
        removed := removed + [a[i]];
        i := i + 1;
      }
      rest := Compare(a[i..], b[j..]);
    }
    if j < |b| {
      added := added + b[j..];
    } else if i < |a| {
      removed := removed + a[i..];
    }
    assert rest == Delta(a[i..], b[j..]);
  }

  /** Sorts the caller's lists in place if asked to, and compares them. */
  method ComputeDeltaOfUint16Lists(list1: array<nat>, list2: array<nat>, sort: bool) returns (removed: Vbs, added: Vbs)
    modifies list1, list2
    ensures if sort then list1[..] == Sort(old(list1[..])) && list2[..] == Sort(old(list2[..]))
            else list1[..] == old(list1[..]) && list2[..] == old(list2[..])
    ensures Delta(removed, added) == Compare(list1[..], list2[..])
    ensures sort || (Sorted(old(list1[..])) && Sorted(old(list2[..]))) ==>
              && Sorted(removed) && Sorted(added)
              && multiset(removed) == multiset(old(list1[..])) - multiset(old(list2[..]))
              && multiset(added) == multiset(old(list2[..])) - multiset(old(list1[..]))
  {
    if sort {
      SortTwice(list1[..]);
      SortSorts(list1[..]);
      SortSorts(list2[..]);
      SortUint16List(list1);
      SortUint16List(list2);
    }
    removed, added := Walk(list1[..], list2[..]);
    if Sorted(list1[..]) && Sorted(list2[..]) { Differences(list1[..], list2[..]); }
  }

  /** A list that is sorted is left as it is; needed when both lists are the same array. */
  lemma {:induction false} SortOfSorted(s: Vbs)
    requires Sorted(s)
    ensures Sort(s) == s
  {
    if s != [] { SortOfSorted(s[1..]); }
  }

  lemma SortTwice(s: Vbs)
    ensures Sort(Sort(s)) == Sort(s)
  {
    SortSorts(s);
    SortOfSorted(Sort(s));
  }

  // -------------------------------------------------------------------------
  // What the walk finds

  lemma {:induction false} ConservedAt(a: Vbs, b: Vbs, x: nat)
    ensures var d := Compare(a, b); multiset(a)[x] + multiset(d.added)[x] == multiset(b)[x] + multiset(d.removed)[x]
    decreases |a| + |b|
  {
    if a != [] && b != [] {
      SplitCount(a, x);
      SplitCount(b, x);
      if a[0] == b[0] {
        ConservedAt(a[1..], b[1..], x);
      } else if a[0] > b[0] {
        ConservedAt(a, b[1..], x);
        HeadCount(b[0], Compare(a, b[1..]).added, x);
      } else {
        ConservedAt(a[1..], b, x);
        HeadCount(a[0], Compare(a[1..], b).removed, x);
      }
    }
  }

  /** Whatever the order of the lists, taking away what was removed and putting in what was added leads from one to
      the other. */
  lemma Conserved(a: Vbs, b: Vbs)
    ensures var d := Compare(a, b); multiset(a) + multiset(d.added) == multiset(b) + multiset(d.removed)
  {
    var d := Compare(a, b);
    forall x ensures (multiset(a) + multiset(d.added))[x] == (multiset(b) + multiset(d.removed))[x] {
      ConservedAt(a, b, x);
    }
  }

  lemma {:induction false} FromTheLists(a: Vbs, b: Vbs)
    ensures forall x :: x in Compare(a, b).removed ==> x in a
    ensures forall x :: x in Compare(a, b).added ==> x in b
    decreases |a| + |b|
  {
    if a != [] && b != [] {
      if a[0] == b[0] {
        FromTheLists(a[1..], b[1..]);
      } else if a[0] > b[0] {
        FromTheLists(a, b[1..]);
      } else {
        FromTheLists(a[1..], b);
      }
    }
  }

  ghost predicate Apart(a: Vbs, b: Vbs) { forall x :: !(x in a && x in b) }

  lemma SortedFront(s: Vbs, x: nat)
    requires Sorted(s) && x in s
    ensures s[0] <= x
  {
  }

  lemma FrontStaysSorted(rest: Vbs, s: Vbs)
    requires Sorted(rest) && Sorted(s) && s != [] && forall y :: y in rest ==> y in s
    ensures Sorted([s[0]] + rest)
  {
    forall y | y in rest ensures s[0] <= y { SortedFront(s, y); }
    Prepended(s[0], rest);
  }

  /** For sorted lists both results are sorted and have nothing in common. */
  lemma {:induction false} Separate(a: Vbs, b: Vbs)
    requires Sorted(a) && Sorted(b)
    ensures var d := Compare(a, b); Sorted(d.removed) && Sorted(d.added) && Apart(d.removed, d.added)
    decreases |a| + |b|
  {
    if a != [] && b != [] {
      if a[0] == b[0] {
        Separate(a[1..], b[1..]);
      } else if a[0] > b[0] {
        Separate(a, b[1..]);
        FromTheLists(a, b[1..]);
        FrontStaysSorted(Compare(a, b[1..]).added, b);
        assert b[0] !in a;
      } else {
        Separate(a[1..], b);
        FromTheLists(a[1..], b);
        FrontStaysSorted(Compare(a[1..], b).removed, a);
        assert a[0] !in b;
      }
    }
  }

  /** For sorted lists the results are the two differences, repetitions counted. */
  lemma Differences(a: Vbs, b: Vbs)
    requires Sorted(a) && Sorted(b)
    ensures var d := Compare(a, b);
            && Sorted(d.removed) && Sorted(d.added)
            && multiset(d.removed) == multiset(a) - multiset(b)
            && multiset(d.added) == multiset(b) - multiset(a)
  {
    Separate(a, b);
    Conserved(a, b);
    var d := Compare(a, b);
    forall x
      ensures multiset(d.removed)[x] == (multiset(a) - multiset(b))[x] &&
              multiset(d.added)[x] == (multiset(b) - multiset(a))[x]
    {
      assert (multiset(a) + multiset(d.added))[x] == (multiset(b) + multiset(d.removed))[x];
      assert !(x in d.removed && x in d.added);
      assert multiset(d.removed)[x] == 0 || multiset(d.added)[x] == 0;
    }
  }

  /** Unsorted lists can show a vbucket as both removed and added although it stayed. */
  lemma {:induction false} UnsortedListsMislead()
    ensures Compare([2, 1], [1, 2]) == Delta([1], [1])
  {
    assert [2, 1][1..] == [1] && [1, 2][1..] == [2];
    assert Compare([1], []) == Delta([1], []);
    assert Compare([2, 1], [2]) == Delta([1], []);
  }
}
