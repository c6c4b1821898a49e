/** The descriptive statistics of `DataProcessor.analyze_numbers` in
    python-test/src/data_processor.py: count, sum, mean, min, max and median
    of a list of numbers, over exact reals. The rest of the class is file I/O
    and is not part of this model. */
module DataProcessor {
  import opened Results
  import opened Sums

  /** The dictionary analyze_numbers returns for a non-empty input. */
  datatype Summary = Summary(count: nat, sum: real, mean: real, min: real, max: real, median: real)

  /** Python's `min`: the smallest element. */
  function Min(s: seq<real>): (m: real)
    requires s != []
    ensures m in s && forall x :: x in s ==> m <= x
  {
    if |s| == 1 then s[0]
    else
      var m := Min(s[..|s| - 1]);
      assert forall x :: x in s ==> x in s[..|s| - 1] || x == s[|s| - 1];
      if s[|s| - 1] < m then s[|s| - 1] else m
  }

  /** Python's `max`: the largest element. */
  function Max(s: seq<real>): (m: real)
    requires s != []
    ensures m in s && forall x :: x in s ==> x <= m
  {
    if |s| == 1 then s[0]
    else
      var m := Max(s[..|s| - 1]);
      assert forall x :: x in s ==> x in s[..|s| - 1] || x == s[|s| - 1];
      if s[|s| - 1] > m then s[|s| - 1] else m
  }

  ghost predicate Ascending(s: seq<real>)
  {
    forall i, j :: 0 <= i < j < |s| ==> s[i] <= s[j]
  }

  /** `x` placed into an ascending list before the first element not below it. */
  function Insert(x: real, s: seq<real>): seq<real>
  {
    if s == [] || x <= s[0] then [x] + s else [s[0]] + Insert(x, s[1..])
  }

  /** Inserting keeps an ascending list ascending and adds exactly `x`. */
  lemma {:induction false} InsertCorrect(x: real, s: seq<real>)
    ensures |Insert(x, s)| == |s| + 1
    ensures multiset(Insert(x, s)) == multiset{x} + multiset(s)
    ensures Insert(x, s)[0] == x || (s != [] && Insert(x, s)[0] == s[0])
    ensures Ascending(s) ==> Ascending(Insert(x, s))
  {
    if s != [] && x > s[0] {
      var rest := Insert(x, s[1..]);
      InsertCorrect(x, s[1..]);
      assert s == [s[0]] + s[1..];
      if Ascending(s) {
        assert Ascending(s[1..]);
        InsertAfter(s[0], rest);
      }
    }
  }

  /** A value no larger than the head of an ascending list may go in front of it. */
  lemma InsertAfter(y: real, t: seq<real>)
    requires Ascending(t) && (t != [] ==> y <= t[0])
    ensures Ascending([y] + t)
  {
  }

  /** Python's `sorted`: insertion of each element, from the last to the first. */
  function SortAscending(s: seq<real>): seq<real>
  {
    if s == [] then [] else Insert(s[0], SortAscending(s[1..]))
  }

  /** `sorted` returns an ascending rearrangement of its input. */
  lemma {:induction false} SortAscendingCorrect(s: seq<real>)
    ensures Ascending(SortAscending(s)) && multiset(SortAscending(s)) == multiset(s)
  {
    if s != [] {
      SortAscendingCorrect(s[1..]);
      InsertCorrect(s[0], SortAscending(s[1..]));
      assert s == [s[0]] + s[1..];
    }
  }

  /** The head of an ascending list is no larger than any of its elements. */
  lemma AscendingHeadLeast(a: seq<real>, x: real)
    requires Ascending(a) && x in multiset(a)
    ensures a[0] <= x
  {
    assert x in a;
    var i :| 0 <= i < |a| && a[i] == x;
    assert a[0] <= a[i];
  }

  /** There is only one ascending arrangement of a multiset, so `sorted` is
      determined by the multiset of its input. */
  lemma {:induction false} AscendingUnique(a: seq<real>, b: seq<real>)
    requires Ascending(a) && Ascending(b) && multiset(a) == multiset(b)
    ensures a == b
  {
    SameLength(a, b);
    if a != [] {
      assert a[0] in multiset(a) && b[0] in multiset(b);
      AscendingHeadLeast(a, b[0]);
      AscendingHeadLeast(b, a[0]);
      assert a[0] == b[0];
      Tail(a);
      Tail(b);
      assert multiset(a[1..]) == multiset(b[1..]);
      AscendingUnique(a[1..], b[1..]);
      assert a[1..] == b[1..];
    }
  }

  /** Dropping the head of a list keeps it ascending and removes one copy of
      the head from its multiset. */
  lemma Tail(a: seq<real>)
    requires a != []
    ensures Ascending(a) ==> Ascending(a[1..])
    ensures multiset(a[1..]) == multiset(a) - multiset{a[0]}
  {
    assert a == [a[0]] + a[1..];
  }

  /** The middle of an ascending list: the middle element for an odd length,
      the average of the two middle elements for an even one. */
  function MedianOfSorted(t: seq<real>): real
    requires t != []
  {
    var n := |t|;
    if n % 2 == 0 then (t[n / 2 - 1] + t[n / 2]) / 2.0 else t[n / 2]
  }

  /** analyze_numbers: None (the empty dictionary) for an empty list,
      otherwise the six statistics. */
  function AnalyzeNumbers(numbers: seq<real>): (r: Option<Summary>)
    ensures r.None? <==> numbers == []
    ensures r.Some? ==> r.value.count == |numbers| && r.value.sum == Sum(numbers)
    ensures r.Some? ==> r.value.mean * (|numbers| as real) == r.value.sum
    ensures r.Some? ==> r.value.min in numbers && r.value.max in numbers
    ensures r.Some? ==> forall x :: x in numbers ==> r.value.min <= x <= r.value.max
  {
    if numbers == [] then None
    else
      var total := Sum(numbers);
      var count := |numbers|;
      assert (total / (count as real)) * (count as real) == total;
      Some(Summary(count, total, total / (count as real), Min(numbers), Max(numbers),
                   MedianOfSorted(SortAscending(numbers))))
  }

  /** The median is the middle of ANY ascending arrangement of the input:
      the middle element for an odd count, the average of the elements at
      n/2 - 1 and n/2 for an even one. */
  lemma MedianIsMiddle(numbers: seq<real>, t: seq<real>)
    requires Ascending(t) && multiset(t) == multiset(numbers) && numbers != []
    ensures |t| == |numbers|
    ensures |numbers| % 2 == 1 ==> AnalyzeNumbers(numbers).value.median == t[|t| / 2]
    ensures |numbers| % 2 == 0 ==>
      AnalyzeNumbers(numbers).value.median == (t[|t| / 2 - 1] + t[|t| / 2]) / 2.0
  {
    SameElements(t, numbers);
    SortAscendingCorrect(numbers);
    AscendingUnique(t, SortAscending(numbers));
  }

  /** The first and last elements of any ascending arrangement of a
      non-empty list are its minimum and its maximum. */
  lemma AscendingEnds(t: seq<real>, numbers: seq<real>)
    requires Ascending(t) && multiset(t) == multiset(numbers) && numbers != []
    ensures |t| == |numbers|
    ensures t[0] == Min(numbers) && t[|t| - 1] == Max(numbers)
  {
    SameElements(t, numbers);
    var lo, hi := Min(numbers), Max(numbers);
    var i :| 0 <= i < |t| && t[i] == lo;
    var j :| 0 <= j < |t| && t[j] == hi;
    var last := |t| - 1;
    assert t[0] <= t[i] && t[0] in numbers;
    assert t[j] <= t[last] && t[last] in numbers;
  }

  lemma SameLength(a: seq<real>, b: seq<real>)
    requires multiset(a) == multiset(b)
    ensures |a| == |b|
  {
    assert |a| == |multiset(a)| == |multiset(b)| == |b|;
  }

  /** Two lists with the same multiset have the same length and the same elements. */
  lemma SameElements(a: seq<real>, b: seq<real>)
    requires multiset(a) == multiset(b)
    ensures |a| == |b|
    ensures forall x :: x in a <==> x in b
  {
    assert |a| == |multiset(a)| == |multiset(b)| == |b|;
    forall x ensures x in a <==> x in b {
      assert x in a <==> x in multiset(a);
      assert x in b <==> x in multiset(b);
    }
  }

  /** min <= median <= max. */
  lemma MedianBetween(numbers: seq<real>)
    requires numbers != []
    ensures var s := AnalyzeNumbers(numbers).value; s.min <= s.median <= s.max
  {
    var t := SortAscending(numbers);
    SortAscendingCorrect(numbers);
    AscendingEnds(t, numbers);
    var n := |t|;
    assert t[0] <= t[n / 2] <= t[n - 1];
    if n % 2 == 0 {
      assert t[0] <= t[n / 2 - 1] <= t[n - 1];
    }
  }

  /** Taking one element out of a list takes it out of the sum. */
  lemma {:induction false} SumRemove(s: seq<real>, k: nat)
    requires k < |s|
    ensures Sum(s) == Sum(s[..k] + s[k + 1..]) + s[k]
  {
    var n := |s|;
    if k < n - 1 {
      var init := s[..n - 1];
      SumRemove(init, k);
      assert init[..k] + init[k + 1..] + [s[n - 1]] == s[..k] + s[k + 1..];
      SumSnoc(init[..k] + init[k + 1..], s[n - 1]);
    } else {
      assert s[..k] + s[k + 1..] == s[..n - 1];
    }
  }

  /** The sum does not depend on the order of the elements. */
  lemma {:induction false} SumPermutation(s: seq<real>, t: seq<real>)
    requires multiset(s) == multiset(t)
    ensures Sum(s) == Sum(t)
  {
    if s != [] {
      var n := |s|;
      var x := s[n - 1];
      assert x in multiset(t);
      var k :| 0 <= k < |t| && t[k] == x;
      var rest := t[..k] + t[k + 1..];
      assert t == t[..k] + [t[k]] + t[k + 1..];
      assert s == s[..n - 1] + [x];
      assert multiset(s) == multiset(s[..n - 1]) + multiset{x};
      assert multiset(t) == multiset(t[..k]) + multiset{x} + multiset(t[k + 1..]);
      assert multiset(rest) == multiset(t[..k]) + multiset(t[k + 1..]);
      assert multiset(s[..n - 1]) == multiset(s) - multiset{x};
      assert multiset(rest) == multiset(t) - multiset{x};
      SumPermutation(s[..n - 1], rest);
      SumRemove(t, k);
    } else {
      assert |t| == |multiset(t)| == 0;
    }
  }

  /** The summary depends only on the multiset of the input: any permutation
      gives the same result. */
  lemma PermutationInvariant(s: seq<real>, t: seq<real>)
    requires multiset(s) == multiset(t)
    ensures AnalyzeNumbers(s) == AnalyzeNumbers(t)
  {
    SameElements(s, t);
    if s != [] {
      SumPermutation(s, t);
      SortAscendingCorrect(s);
      SortAscendingCorrect(t);
      AscendingUnique(SortAscending(s), SortAscending(t));
      var ms, mt := Min(s), Min(t);
      assert ms <= mt && mt <= ms;
      var xs, xt := Max(s), Max(t);
      assert xs <= xt && xt <= xs;
    }
  }

  /** A single number is its own count-1 summary. */
  lemma SingleNumber(x: real)
    ensures AnalyzeNumbers([x]) == Some(Summary(1, x, x, x, x, x))
  {
    assert [x][..0] == [] && [x][1..] == [];
    assert SortAscending([x]) == [x];
    assert Sum([x]) == x;
  }

  /** On a list that is already in ascending order, min and max are its
      ends and the median is read off the list itself. */
  lemma SummaryOfAscending(t: seq<real>)
    requires Ascending(t) && t != []
    ensures AnalyzeNumbers(t).value.min == t[0]
    ensures AnalyzeNumbers(t).value.max == t[|t| - 1]
    ensures AnalyzeNumbers(t).value.median == MedianOfSorted(t)
  {
    AscendingEnds(t, t);
    MedianIsMiddle(t, t);
  }

  lemma SumOneToFive()
    ensures Sum([1.0, 2.0, 3.0, 4.0, 5.0]) == 15.0
  {
    SumSnoc([], 1.0);
    assert [] + [1.0] == [1.0];
    SumSnoc([1.0], 2.0);
    assert [1.0] + [2.0] == [1.0, 2.0];
    SumSnoc([1.0, 2.0], 3.0);
    assert [1.0, 2.0] + [3.0] == [1.0, 2.0, 3.0];
    SumSnoc([1.0, 2.0, 3.0], 4.0);
    assert [1.0, 2.0, 3.0] + [4.0] == [1.0, 2.0, 3.0, 4.0];
    SumSnoc([1.0, 2.0, 3.0, 4.0], 5.0);
    assert [1.0, 2.0, 3.0, 4.0] + [5.0] == [1.0, 2.0, 3.0, 4.0, 5.0];
  }

  /** The summary the source's tests expect for [1, 2, 3, 4, 5]. */
  lemma ExampleOneToFive()
    ensures AnalyzeNumbers([1.0, 2.0, 3.0, 4.0, 5.0]) == Some(Summary(5, 15.0, 3.0, 1.0, 5.0, 3.0))
  {
    var s := [1.0, 2.0, 3.0, 4.0, 5.0];
    SumOneToFive();
    SummaryOfAscending(s);
  }

  /** An even count averages the two middle elements: [1, 2, 3, 4] has median 2.5. */
  lemma ExampleMedianEven()
    ensures AnalyzeNumbers([1.0, 2.0, 3.0, 4.0]).value.median == 2.5
  {
    var s := [1.0, 2.0, 3.0, 4.0];
    MedianIsMiddle(s, s);
  }

  /** An odd count takes the middle element: [1, 2, 3] has median 2. */
  lemma ExampleMedianOdd()
    ensures AnalyzeNumbers([1.0, 2.0, 3.0]).value.median == 2.0
  {
    var s := [1.0, 2.0, 3.0];
    MedianIsMiddle(s, s);
  }

  /** The median is taken after sorting: [5, 1, 3] has median 3. */
  lemma ExampleMedianUnsorted()
    ensures AnalyzeNumbers([5.0, 1.0, 3.0]).value.median == 3.0
  {
    var s, t := [5.0, 1.0, 3.0], [1.0, 3.0, 5.0];
    assert multiset(s) == multiset(t);
    MedianIsMiddle(s, t);
  }
}
