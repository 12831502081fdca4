/**
  Facts about the nine digits of the Play Nine board and about the two
  array operations the game applies to lists of digits: the running sum
  (`reduce((acc, n) => acc + n, 0)`) and the filter that drops one value
  (`filter(number => number !== d)`).
*/
module Digits {

  /** A digit of the board: the board lists `_.range(1, 10)`, i.e. 1 through 9. */
  predicate IsDigit(d: int) {
    1 <= d <= 9
  }

  /** The set of all nine board digits. */
  function AllDigits(): (ds: set<int>)
    ensures forall d :: d in ds <==> IsDigit(d)
  {
    {1, 2, 3, 4, 5, 6, 7, 8, 9}
  }

  /** Every element of `s` is a board digit. */
  predicate OnlyDigits(s: seq<int>) {
    forall i :: 0 <= i < |s| ==> IsDigit(s[i])
  }

  /** No value occurs twice in `s`. */
  predicate NoDuplicates(s: seq<int>) {
    forall i, j :: 0 <= i < j < |s| ==> s[i] != s[j]
  }

  /** No value occurs in both `a` and `b`. */
  predicate Disjoint(a: seq<int>, b: seq<int>) {
    forall x :: x in a ==> x !in b
  }

  /** The values occurring in `s`. */
  function Elements(s: seq<int>): (e: set<int>)
    ensures forall x :: x in e <==> x in s
  {
    set x | x in s
  }

  /** The left fold `s.reduce((acc, n) => acc + n, 0)`: the last element is added last. */
  function Sum(s: seq<int>): (total: int)
  {
    if |s| == 0 then 0 else Sum(s[..|s| - 1]) + s[|s| - 1]
  }

  /** The sum splits over concatenation. */
  lemma {:induction false} SumAppend(a: seq<int>, b: seq<int>)
    ensures Sum(a + b) == Sum(a) + Sum(b)
    decreases |b|
  {
    if |b| == 0 {
      assert a + b == a;
    } else {
      var b' := b[..|b| - 1];
      assert (a + b)[..|a + b| - 1] == a + b';
      SumAppend(a, b');
    }
  }

  /**
    The sum depends only on which values occur, and how often: the order in
    which digits were clicked does not change the checked answer.
  */
  lemma {:induction false} SumPermutation(a: seq<int>, b: seq<int>)
    requires multiset(a) == multiset(b)
    ensures Sum(a) == Sum(b)
    decreases |a|
  {
    if |a| == 0 {
      assert |multiset(b)| == 0;
    } else {
      var x := a[|a| - 1];
      var a' := a[..|a| - 1];
      assert a == a' + [x];
      assert x in multiset(b);
      var i :| 0 <= i < |b| && b[i] == x;
      var b' := b[..i] + b[i + 1..];
      assert b == b[..i] + [x] + b[i + 1..];
      assert multiset(b') == multiset(b) - multiset{x};
      assert multiset(a') == multiset(a) - multiset{x};
      SumPermutation(a', b');
      SumAppend(b[..i] + [x], b[i + 1..]);
      SumAppend(b[..i], [x]);
      SumAppend(b[..i], b[i + 1..]);
      assert Sum([x]) == x by {
        assert [x][..0] == [];
      }
    }
  }

  /**
    `filter(number => number !== d)`: keeps every element other than `d`,
    in its original order.
  */
  function Without(s: seq<int>, d: int): (r: seq<int>)
    ensures multiset(r) == multiset(s)[d := 0]
    ensures forall x :: x in r <==> x in s && x != d
  {
    if |s| == 0 then []
    else
      assert s == [s[0]] + s[1..];
      if s[0] == d then Without(s[1..], d) else [s[0]] + Without(s[1..], d)
  }

  /** Filtering distributes over concatenation, so it keeps the relative order of what it keeps. */
  lemma {:induction false} WithoutAppend(a: seq<int>, b: seq<int>, d: int)
    ensures Without(a + b, d) == Without(a, d) + Without(b, d)
    decreases |a|
  {
    if |a| == 0 {
      assert a + b == b;
    } else {
      assert (a + b)[0] == a[0];
      assert (a + b)[1..] == a[1..] + b;
      WithoutAppend(a[1..], b, d);
    }
  }

  /** Filtering out a value that does not occur changes nothing. */
  lemma {:induction false} WithoutAbsent(s: seq<int>, d: int)
    requires d !in s
    ensures Without(s, d) == s
    decreases |s|
  {
    if |s| != 0 {
      WithoutAbsent(s[1..], d);
    }
  }

  /**
    In a duplicate-free list, filtering out the element at position `i` is
    exactly cutting that one position out: the elements before it and after
    it stay where they were relative to each other.
  */
  lemma WithoutAt(s: seq<int>, i: int)
    requires NoDuplicates(s)
    requires 0 <= i < |s|
    ensures Without(s, s[i]) == s[..i] + s[i + 1..]
  {
    var d, pre, post := s[i], s[..i], s[i + 1..];
    OnlyOnce(s, i);
    SplitAt(s, i);
    WithoutMiddle(pre, d, post);
  }

  /** A list is its prefix, its element at `i` and its suffix. */
  lemma SplitAt(s: seq<int>, i: int)
    requires 0 <= i < |s|
    ensures s == s[..i] + ([s[i]] + s[i + 1..])
  {
  }

  /** Filtering out a value that occurs once, between `pre` and `post`, leaves `pre + post`. */
  lemma WithoutMiddle(pre: seq<int>, d: int, post: seq<int>)
    requires d !in pre && d !in post
    ensures Without(pre + ([d] + post), d) == pre + post
  {
    WithoutAppend(pre, [d] + post, d);
    WithoutAbsent(pre, d);
    WithoutHead(d, post);
    WithoutAbsent(post, d);
  }

  /** In a duplicate-free list the element at `i` occurs neither before nor after `i`. */
  lemma OnlyOnce(s: seq<int>, i: int)
    requires NoDuplicates(s)
    requires 0 <= i < |s|
    ensures s[i] !in s[..i] && s[i] !in s[i + 1..]
  {
  }

  /** Filtering out the first element's own value skips that element. */
  lemma WithoutHead(d: int, s: seq<int>)
    ensures Without([d] + s, d) == Without(s, d)
  {
  }

  /** Filtering keeps a list digits-only and duplicate-free. */
  lemma {:induction false} WithoutKeepsShape(s: seq<int>, d: int)
    requires OnlyDigits(s) && NoDuplicates(s)
    ensures OnlyDigits(Without(s, d)) && NoDuplicates(Without(s, d))
    decreases |s|
  {
    if |s| != 0 {
      var t := s[1..];
      assert OnlyDigits(t) && NoDuplicates(t);
      WithoutKeepsShape(t, d);
      assert s[0] !in t;
    }
  }

  /** A duplicate-free list has as many distinct values as elements. */
  lemma {:induction false} ElementsOfDistinct(s: seq<int>)
    requires NoDuplicates(s)
    ensures |Elements(s)| == |s|
    decreases |s|
  {
    if |s| != 0 {
      var s' := s[..|s| - 1];
      var x := s[|s| - 1];
      assert s == s' + [x];
      assert NoDuplicates(s');
      ElementsOfDistinct(s');
      assert x !in s';
      assert Elements(s) == Elements(s') + {x};
    }
  }

  /** There are exactly nine board digits. */
  lemma AllDigitsCount()
    ensures |AllDigits()| == 9
  {
  }

  /**
    A duplicate-free list of board digits has at most nine elements, and it
    has exactly nine precisely when every board digit occurs in it.
  */
  lemma FullIffEveryDigit(s: seq<int>)
    requires OnlyDigits(s) && NoDuplicates(s)
    ensures |s| <= 9
    ensures |s| == 9 <==> forall d :: IsDigit(d) ==> d in s
  {
    ElementsOfDistinct(s);
    AllDigitsCount();
    var e := Elements(s);
    var all := AllDigits();
    assert e <= all;
    assert |all - e| == |all| - |e| by {
      assert all == (all - e) + e;
    }
    if |s| == 9 {
      assert |all - e| == 0;
      assert all - e == {};
      forall d | IsDigit(d) ensures d in s {
        assert d in all;
      }
    }
    if forall d :: IsDigit(d) ==> d in s {
      assert all <= e;
      assert e == all;
    }
  }

  /** Two disjoint duplicate-free lists of digits concatenate to a duplicate-free list of digits. */
  lemma ConcatDistinct(a: seq<int>, b: seq<int>)
    requires OnlyDigits(a) && NoDuplicates(a)
    requires OnlyDigits(b) && NoDuplicates(b)
    requires Disjoint(b, a)
    ensures OnlyDigits(a + b) && NoDuplicates(a + b)
  {
    var c := a + b;
    forall i, j | 0 <= i < j < |c| ensures c[i] != c[j] {
      if i < |a| && j >= |a| {
        assert c[i] in a;
        assert c[j] == b[j - |a|];
        assert c[j] in b;
      } else if i >= |a| {
        assert c[i] == b[i - |a|] && c[j] == b[j - |a|];
      }
    }
  }

  /** 1 + 2 + ... + 9 == 45. */
  lemma SumOneToNine()
    ensures Sum([1, 2, 3, 4, 5, 6, 7, 8, 9]) == 45
  {
    var s := [1, 2, 3, 4, 5, 6, 7, 8, 9];
    assert s[..1][..0] == s[..0];
    assert Sum(s[..1]) == 1;
    assert s[..2][..1] == s[..1];
    assert Sum(s[..2]) == 3;
    assert s[..3][..2] == s[..2];
    assert Sum(s[..3]) == 6;
    assert s[..4][..3] == s[..3];
    assert Sum(s[..4]) == 10;
    assert s[..5][..4] == s[..4];
    assert Sum(s[..5]) == 15;
    assert s[..6][..5] == s[..5];
    assert Sum(s[..6]) == 21;
    assert s[..7][..6] == s[..6];
    assert Sum(s[..7]) == 28;
    assert s[..8][..7] == s[..7];
    assert Sum(s[..8]) == 36;
    assert Sum(s) == 45;
  }

  /** Whatever the order, a duplicate-free list of all nine digits sums to 45. */
  lemma SumOfAllDigits(s: seq<int>)
    requires OnlyDigits(s) && NoDuplicates(s) && |s| == 9
    ensures Sum(s) == 45
  {
    FullIffEveryDigit(s);
    var sorted := [1, 2, 3, 4, 5, 6, 7, 8, 9];
    assert Elements(s) == Elements(sorted) by {
      forall x ensures x in s <==> x in sorted {
        assert x in sorted <==> IsDigit(x);
      }
    }
    DistinctSameElements(s, sorted);
    SumPermutation(s, sorted);
    SumOneToNine();
  }

  /** In a duplicate-free list every value occurs at most once. */
  lemma {:induction false} DistinctMultiplicity(s: seq<int>, x: int)
    requires NoDuplicates(s)
    ensures multiset(s)[x] == if x in s then 1 else 0
    decreases |s|
  {
    if |s| != 0 {
      var s' := s[..|s| - 1];
      assert s == s' + [s[|s| - 1]];
      assert NoDuplicates(s');
      DistinctMultiplicity(s', x);
    }
  }

  /** Two duplicate-free lists with the same values are permutations of each other. */
  lemma DistinctSameElements(a: seq<int>, b: seq<int>)
    requires NoDuplicates(a) && NoDuplicates(b)
    requires Elements(a) == Elements(b)
    ensures multiset(a) == multiset(b)
  {
    forall x ensures multiset(a)[x] == multiset(b)[x] {
      DistinctMultiplicity(a, x);
      DistinctMultiplicity(b, x);
      assert x in a <==> x in b;
    }
  }
}
