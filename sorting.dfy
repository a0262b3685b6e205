/** The "newest first" ordering both endpoints apply with `Array.prototype.sort`
    and the comparator `(a, b) => time(b) - time(a)`. `new Date(...).getTime()`
    is not modelled: `time` is supplied and returns `None` where the source gets
    `NaN` (or, in the articles endpoint, where the date is missing); such a
    comparison yields 0 there as here. The sort itself is a stable insertion sort. */
module Sorting {
  import opened Wrappers

  /** The comparator: negative when `a` is newer than `b`, 0 when either date is unknown. */
  function Compare<T(==)>(time: T -> Option<int>, a: T, b: T): (c: int)
    ensures time(a).None? || time(b).None? ==> c == 0
    ensures time(a).Some? && time(b).Some? ==> (c < 0 <==> time(a).value > time(b).value)
  {
    if time(a).None? || time(b).None? then 0 else time(b).value - time(a).value
  }

  /** Swapping the arguments negates the comparator. */
  lemma CompareAntisymmetric<T>(time: T -> Option<int>, a: T, b: T)
    ensures Compare(time, a, b) == 0 - Compare(time, b, a)
  {
  }

  /** Insert `x`, which came before every element of `s` in the input, in front of
      the first element it does not sort after. */
  function Insert<T(==)>(time: T -> Option<int>, x: T, s: seq<T>): (r: seq<T>)
    ensures |r| == |s| + 1
    ensures multiset(r) == multiset(s) + multiset{x}
  {
    if s == [] then [x]
    else if Compare(time, x, s[0]) <= 0 then [x] + s
    else assert s == [s[0]] + s[1..]; [s[0]] + Insert(time, x, s[1..])
  }

  function SortNewestFirst<T(==)>(time: T -> Option<int>, s: seq<T>): (r: seq<T>)
    ensures |r| == |s|
    ensures multiset(r) == multiset(s)
  {
    if s == [] then [] else assert s == [s[0]] + s[1..]; Insert(time, s[0], SortNewestFirst(time, s[1..]))
  }

  predicate AllDated<T(==)>(time: T -> Option<int>, s: seq<T>)
  {
    forall x :: x in s ==> time(x).Some?
  }

  /** Each element is at least as new as every element after it. */
  predicate NewestFirst<T(==)>(time: T -> Option<int>, s: seq<T>)
    requires AllDated(time, s)
  {
    forall i, j :: 0 <= i < j < |s| ==> time(s[j]).value <= time(s[i]).value
  }

  predicate NotNewerThan<T(==)>(time: T -> Option<int>, s: seq<T>, bound: int)
    requires AllDated(time, s)
  {
    forall x :: x in s ==> time(x).value <= bound
  }

  lemma {:induction false} InsertBounded<T>(time: T -> Option<int>, x: T, s: seq<T>, bound: int)
    requires AllDated(time, s) && time(x).Some? && time(x).value <= bound
    requires NotNewerThan(time, s, bound)
    ensures AllDated(time, Insert(time, x, s)) && NotNewerThan(time, Insert(time, x, s), bound)
  {
    var r := Insert(time, x, s);
    forall y | y in r
      ensures time(y).Some? && time(y).value <= bound
    {
      assert y in multiset(r);
      assert y == x || y in multiset(s);
    }
  }

  /** Helper: `x` in front of a sorted list it is not older than. */
  lemma PrependSorted<T>(time: T -> Option<int>, x: T, s: seq<T>)
    requires AllDated(time, s) && time(x).Some? && NewestFirst(time, s)
    requires s != [] ==> time(s[0]).value <= time(x).value
    ensures AllDated(time, [x] + s) && NewestFirst(time, [x] + s)
  {
    var r := [x] + s;
    forall i, j | 0 <= i < j < |r|
      ensures time(r[j]).value <= time(r[i]).value
    {
      if i == 0 {
        assert r[j] == s[j - 1];
        assert time(s[j - 1]).value <= time(s[0]).value;
      } else {
        assert r[i] == s[i - 1] && r[j] == s[j - 1];
      }
    }
  }

  /** Helper: the tail of a sorted list is sorted and bounded by its head. */
  lemma TailBounded<T>(time: T -> Option<int>, s: seq<T>)
    requires s != [] && AllDated(time, s) && NewestFirst(time, s)
    ensures AllDated(time, s[1..]) && NewestFirst(time, s[1..])
    ensures NotNewerThan(time, s[1..], time(s[0]).value)
  {
    forall y | y in s[1..]
      ensures time(y).Some? && time(y).value <= time(s[0]).value
    {
      var k :| 0 <= k < |s[1..]| && s[1..][k] == y;
      assert s[k + 1] == y;
    }
    forall i, j | 0 <= i < j < |s[1..]|
      ensures time(s[1..][j]).value <= time(s[1..][i]).value
    {
      assert s[1..][i] == s[i + 1] && s[1..][j] == s[j + 1];
    }
  }

  lemma {:induction false} InsertSorted<T>(time: T -> Option<int>, x: T, s: seq<T>)
    requires AllDated(time, s) && time(x).Some? && NewestFirst(time, s)
    ensures AllDated(time, Insert(time, x, s)) && NewestFirst(time, Insert(time, x, s))
  {
    if s == [] {
    } else if Compare(time, x, s[0]) <= 0 {
      PrependSorted(time, x, s);
    } else {
      var rest := Insert(time, x, s[1..]);
      TailBounded(time, s);
      InsertSorted(time, x, s[1..]);
      InsertBounded(time, x, s[1..], time(s[0]).value);
      assert forall y :: y in rest ==> time(y).value <= time(s[0]).value;
      PrependSorted(time, s[0], rest);
    }
  }

  /** When every date is known the comparator is a total order, and the result is
      sorted newest first. */
  lemma {:induction false} SortedWhenAllDated<T>(time: T -> Option<int>, s: seq<T>)
    requires AllDated(time, s)
    ensures AllDated(time, SortNewestFirst(time, s))
    ensures NewestFirst(time, SortNewestFirst(time, s))
  {
    if s != [] {
      assert AllDated(time, s[1..]) by {
        forall y | y in s[1..] ensures time(y).Some? {
          var k :| 0 <= k < |s[1..]| && s[1..][k] == y;
          assert s[k + 1] == y;
        }
      }
      assert s[0] in s;
      SortedWhenAllDated(time, s[1..]);
      InsertSorted(time, s[0], SortNewestFirst(time, s[1..]));
    }
  }
}
