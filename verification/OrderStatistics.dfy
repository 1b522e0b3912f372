/** Sorting and the median of a handful of measurements. */
module OrderStatistics {

  predicate IsSorted(s: seq<int>) {
    forall i, j :: 0 <= i < j < |s| ==> s[i] <= s[j]
  }

  function Insert(x: int, s: seq<int>): seq<int> {
    if s == [] || x <= s[0] then [x] + s else [s[0]] + Insert(x, s[1..])
  }

  function Sorted(s: seq<int>): seq<int> {
    if s == [] then [] else Insert(s[0], Sorted(s[1..]))
  }

  lemma {:induction false} InsertPermutes(x: int, s: seq<int>)
    ensures multiset(Insert(x, s)) == multiset{x} + multiset(s)
  {
    if s != [] && x > s[0] {
      InsertPermutes(x, s[1..]);
      assert s == [s[0]] + s[1..];
    }
  }

  lemma {:induction false} InsertKeepsOrder(x: int, s: seq<int>)
    requires IsSorted(s)
    ensures IsSorted(Insert(x, s))
  {
    if s != [] && x > s[0] {
      var tail := Insert(x, s[1..]);
      InsertKeepsOrder(x, s[1..]);
      forall i | 0 <= i < |tail|
        ensures s[0] <= tail[i]
      {
        InsertPermutes(x, s[1..]);
        assert tail[i] in multiset(tail);
      }
    }
  }

  lemma {:induction false} SortedIsSorted(s: seq<int>)
    ensures IsSorted(Sorted(s)) && multiset(Sorted(s)) == multiset(s) && |Sorted(s)| == |s|
  {
    if s != [] {
      SortedIsSorted(s[1..]);
      InsertKeepsOrder(s[0], Sorted(s[1..]));
      InsertPermutes(s[0], Sorted(s[1..]));
      assert s == [s[0]] + s[1..];
      assert |multiset(Sorted(s))| == |multiset(s)|;
    }
  }

  lemma LeastIsFirst(s: seq<int>, t: seq<int>)
    requires IsSorted(s) && multiset(s) == multiset(t) && s != [] && t != []
    ensures s[0] <= t[0]
  {
    assert t[0] in multiset(s);
  }

  lemma {:induction false} SortedIsUnique(s: seq<int>, t: seq<int>)
    requires IsSorted(s) && IsSorted(t) && multiset(s) == multiset(t)
    ensures s == t
  {
    assert |multiset(s)| == |s| && |multiset(t)| == |t|;
    if s != [] {
      LeastIsFirst(s, t);
      LeastIsFirst(t, s);
      assert s == [s[0]] + s[1..] && t == [t[0]] + t[1..];
      assert multiset(s[1..]) == multiset(s) - multiset{s[0]};
      assert multiset(t[1..]) == multiset(t) - multiset{t[0]};
      SortedIsUnique(s[1..], t[1..]);
    }
  }

  /** `s` lists the elements in order. */
  ghost predicate Lists(s: seq<int>, elements: multiset<int>) {
    IsSorted(s) && multiset(s) == elements
  }

  /** The middle element, or the mean of the two middle ones rounded down. */
  function Middle(s: seq<int>): int
    requires s != []
  {
    if |s| % 2 == 1 then s[|s| / 2] else (s[|s| / 2 - 1] + s[|s| / 2]) / 2
  }

  /** `m` is the middle of the elements in order. */
  ghost predicate IsMedian(elements: multiset<int>, m: int) {
    exists s: seq<int> :: Lists(s, elements) && s != [] && m == Middle(s)
  }

  /** Elements have one median, in whatever order they were measured. */
  lemma MedianIsUnique(elements: multiset<int>, m: int, n: int)
    requires IsMedian(elements, m) && IsMedian(elements, n)
    ensures m == n
  {
    forall s: seq<int>, t: seq<int> | Lists(s, elements) && Lists(t, elements)
      ensures s == t
    {
      SortedIsUnique(s, t);
    }
  }

  lemma PermutedInRange(s: seq<int>, t: seq<int>, k: nat, low: int, high: int)
    requires multiset(s) == multiset(t) && k < |t|
    requires forall i :: 0 <= i < |s| ==> low <= s[i] <= high
    ensures low <= t[k] <= high
  {
    assert t[k] in multiset(s);
  }

  lemma ListedMedian(s: seq<int>, t: seq<int>, low: int, high: int)
    requires s != [] && t != [] && Lists(t, multiset(s)) && forall i :: 0 <= i < |s| ==> low <= s[i] <= high
    ensures IsMedian(multiset(s), Middle(t)) && low <= Middle(t) <= high
  {
    PermutedInRange(s, t, |t| / 2, low, high);
    if |t| % 2 == 0 {
      PermutedInRange(s, t, |t| / 2 - 1, low, high);
    }
  }

  /** Sorting finds the median, and it lies within the elements' bounds. */
  lemma SortedFindsMedian(s: seq<int>, low: int, high: int)
    requires s != [] && forall i :: 0 <= i < |s| ==> low <= s[i] <= high
    ensures Sorted(s) != [] && IsMedian(multiset(s), Middle(Sorted(s))) && low <= Middle(Sorted(s)) <= high
  {
    SortedIsSorted(s);
    ListedMedian(s, Sorted(s), low, high);
  }
}
