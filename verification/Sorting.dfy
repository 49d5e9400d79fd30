/** Python's `sorted`: a stable sort, by any comparison. */
module Sorting {

  /** x goes in front of the first element that does not come before it. */
  function Insert<T>(x: T, ys: seq<T>, before: (T, T) -> bool): (r: seq<T>)
    ensures multiset(r) == multiset([x]) + multiset(ys)
  {
    if ys == [] || !before(ys[0], x) then [x] + ys
    else
      assert ys == [ys[0]] + ys[1..];
      [ys[0]] + Insert(x, ys[1..], before)
  }

  function StableSort<T>(xs: seq<T>, before: (T, T) -> bool): (r: seq<T>)
    ensures multiset(r) == multiset(xs)
    ensures |r| == |xs|
  {
    if xs == [] then []
    else
      assert xs == [xs[0]] + xs[1..];
      var r := Insert(xs[0], StableSort(xs[1..], before), before);
      SameSize(r, xs);
      r
  }

  /** A prefix one longer, seen from the loop that builds it. */
  lemma PrefixGrows<T>(xs: seq<T>, n: nat)
    requires n < |xs|
    ensures |xs[..n + 1]| == n + 1 && xs[..n + 1][..n] == xs[..n] && xs[..n + 1][n] == xs[n]
    ensures xs[..n + 1] == xs[..n] + [xs[n]]
  {
  }

  lemma WholePrefix<T>(xs: seq<T>)
    ensures xs[..|xs|] == xs
  {
  }

  lemma SplitLast<T>(xs: seq<T>)
    requires xs != []
    ensures xs == xs[..|xs| - 1] + [xs[|xs| - 1]]
    ensures multiset(xs) == multiset(xs[..|xs| - 1]) + multiset{xs[|xs| - 1]}
  {
    var init, last := xs[..|xs| - 1], xs[|xs| - 1];
    assert xs == init + [last];
    assert multiset(init + [last]) == multiset(init) + multiset{last};
  }

  lemma SameSize<T>(a: seq<T>, b: seq<T>)
    requires multiset(a) == multiset(b)
    ensures |a| == |b|
  {
    assert |multiset(a)| == |a| && |multiset(b)| == |b|;
  }

  lemma SameElements<T>(a: seq<T>, b: seq<T>, x: T)
    requires multiset(a) == multiset(b)
    ensures x in a <==> x in b
  {
    assert x in multiset(a) <==> x in multiset(b);
  }

  ghost predicate SortedBy<T(!new)>(xs: seq<T>, before: (T, T) -> bool) {
    forall i, j :: 0 <= i < j < |xs| ==> before(xs[i], xs[j])
  }

  /** `weak` orders by a key: not being before is transitive, and no two are before each other. */
  ghost predicate WeakOrder<T(!new)>(before: (T, T) -> bool) {
    && (forall a, b :: before(a, b) ==> !before(b, a))
    && (forall a, b, c :: before(a, b) && before(b, c) ==> before(a, c))
    && (forall a, b, c :: !before(a, b) && !before(b, c) ==> !before(a, c))
  }

  /** By `first`, and by `second` where `first` does not tell them apart. */
  predicate Lex<T>(first: (T, T) -> bool, second: (T, T) -> bool, a: T, b: T) {
    first(a, b) || (!first(b, a) && second(a, b))
  }

  ghost predicate LexSorted<T(!new)>(xs: seq<T>, first: (T, T) -> bool, second: (T, T) -> bool) {
    forall i, j :: 0 <= i < j < |xs| ==> Lex(first, second, xs[i], xs[j])
  }

  lemma {:induction false} InsertKeepsLex<T(!new)>(x: T, ys: seq<T>, first: (T, T) -> bool, second: (T, T) -> bool)
    requires WeakOrder(first) && LexSorted(ys, first, second)
    requires forall y :: y in ys ==> second(x, y)
    ensures LexSorted(Insert(x, ys, first), first, second)
  {
    if ys == [] {
    } else if !first(ys[0], x) {
      var r := [x] + ys;
      forall i, j | 0 <= i < j < |r| ensures Lex(first, second, r[i], r[j]) {
        if i == 0 {
          HeadStaysFirst(x, ys, first, second, j - 1);
        } else {
          assert Lex(first, second, ys[i - 1], ys[j - 1]);
        }
      }
    } else {
      var rest := Insert(x, ys[1..], first);
      InsertKeepsLex(x, ys[1..], first, second);
      var r := [ys[0]] + rest;
      forall i, j | 0 <= i < j < |r| ensures Lex(first, second, r[i], r[j]) {
        if i > 0 {
          assert Lex(first, second, rest[i - 1], rest[j - 1]);
        } else {
          assert multiset(rest) == multiset([x]) + multiset(ys[1..]);
          assert rest[j - 1] in multiset(rest);
          if rest[j - 1] != x {
            assert rest[j - 1] in ys[1..];
            var k :| 0 <= k < |ys[1..]| && ys[1..][k] == rest[j - 1];
            assert ys[k + 1] == rest[j - 1];
          }
        }
      }
    }
  }

  lemma HeadStaysFirst<T(!new)>(x: T, ys: seq<T>, first: (T, T) -> bool, second: (T, T) -> bool, j: nat)
    requires WeakOrder(first) && LexSorted(ys, first, second) && j < |ys| && !first(ys[0], x)
    requires forall y :: y in ys ==> second(x, y)
    ensures Lex(first, second, x, ys[j])
  {
    if j > 0 {
      assert Lex(first, second, ys[0], ys[j]);
    }
    assert ys[j] in ys;
  }

  /** A stable sort of a sorted sequence keeps the old order among what the new one leaves level. */
  lemma {:induction false} StableSortRefines<T(!new)>(xs: seq<T>, first: (T, T) -> bool, second: (T, T) -> bool)
    requires WeakOrder(first) && SortedBy(xs, second)
    ensures LexSorted(StableSort(xs, first), first, second)
  {
    if xs != [] {
      var rest := xs[1..];
      StableSortRefines(rest, first, second);
      var sorted := StableSort(rest, first);
      forall y | y in sorted ensures second(xs[0], y) {
        SameElements(sorted, rest, y);
        var k :| 0 <= k < |rest| && rest[k] == y;
        assert xs[k + 1] == y;
      }
      InsertKeepsLex(xs[0], sorted, first, second);
    }
  }

  /** Sorting distinct elements by a total order puts each before all that follow it. */
  lemma {:induction false} TotalSort<T(!new)>(xs: seq<T>, before: (T, T) -> bool)
    requires WeakOrder(before)
    requires forall i, j :: 0 <= i < j < |xs| ==> before(xs[i], xs[j]) || before(xs[j], xs[i])
    ensures SortedBy(StableSort(xs, before), before)
  {
    if xs != [] {
      var rest := xs[1..];
      TotalSort(rest, before);
      var sorted := StableSort(rest, before);
      forall y | y in sorted ensures before(xs[0], y) || before(y, xs[0]) {
        SameElements(sorted, rest, y);
        var k :| 0 <= k < |rest| && rest[k] == y;
        assert xs[k + 1] == y;
      }
      InsertSorted(xs[0], sorted, before);
    }
  }

  lemma {:induction false} InsertSorted<T(!new)>(x: T, ys: seq<T>, before: (T, T) -> bool)
    requires WeakOrder(before) && SortedBy(ys, before)
    requires forall y :: y in ys ==> before(x, y) || before(y, x)
    ensures SortedBy(Insert(x, ys, before), before)
  {
    if ys == [] {
    } else if !before(ys[0], x) {
      assert ys[0] in ys;
      var r := [x] + ys;
      forall i, j | 0 <= i < j < |r| ensures before(r[i], r[j]) {
        if i == 0 && j > 1 { assert before(ys[0], ys[j - 1]); }
      }
    } else {
      var rest := Insert(x, ys[1..], before);
      InsertSorted(x, ys[1..], before);
      var r := [ys[0]] + rest;
      forall i, j | 0 <= i < j < |r| ensures before(r[i], r[j]) {
        if i > 0 {
          assert before(rest[i - 1], rest[j - 1]);
        } else {
          assert rest[j - 1] in multiset(rest);
          if rest[j - 1] != x {
            assert rest[j - 1] in ys[1..];
            var k :| 0 <= k < |ys[1..]| && ys[1..][k] == rest[j - 1];
            assert ys[k + 1] == rest[j - 1];
          }
        }
      }
    }
  }

  lemma SameHead<T(!new)>(a: seq<T>, b: seq<T>, before: (T, T) -> bool)
    requires multiset(a) == multiset(b) && a != [] && b != [] && SortedBy(a, before) && SortedBy(b, before)
    requires forall x, y :: before(x, y) ==> !before(y, x)
    ensures a[0] == b[0]
  {
    SameElements(a, b, a[0]);
    SameElements(a, b, b[0]);
    var j :| 0 <= j < |b| && b[j] == a[0];
    var i :| 0 <= i < |a| && a[i] == b[0];
  }

  /** There is one way to put the same elements in strict order. */
  lemma {:induction false} SortedIsUnique<T(!new)>(a: seq<T>, b: seq<T>, before: (T, T) -> bool)
    requires multiset(a) == multiset(b) && SortedBy(a, before) && SortedBy(b, before)
    requires forall x, y :: before(x, y) ==> !before(y, x)
    ensures a == b
  {
    hide SortedBy;
    SameSize(a, b);
    if a != [] {
      SameHead(a, b, before);
      SplitFirst(a);
      SplitFirst(b);
      TailSorted(a, before);
      TailSorted(b, before);
      SortedIsUnique(a[1..], b[1..], before);
    }
  }

  lemma SplitFirst<T>(xs: seq<T>)
    requires xs != []
    ensures xs == [xs[0]] + xs[1..] && multiset(xs[1..]) == multiset(xs) - multiset{xs[0]}
  {
    assert xs == [xs[0]] + xs[1..];
  }

  lemma TailSorted<T(!new)>(a: seq<T>, before: (T, T) -> bool)
    requires a != [] && SortedBy(a, before)
    ensures SortedBy(a[1..], before)
  {
    forall i, j | 0 <= i < j < |a[1..]| ensures before(a[1..][i], a[1..][j]) {
      assert a[1..][i] == a[i + 1] && a[1..][j] == a[j + 1];
    }
  }

  /** Nothing in a stable sort comes before what stands in front of it. */
  lemma NothingOutOfPlace<T(!new)>(xs: seq<T>, before: (T, T) -> bool)
    requires WeakOrder(before)
    ensures
      var r := StableSort(xs, before);
      forall i, j :: 0 <= i < j < |r| ==> !before(r[j], r[i])
  {
    var any := (a: T, b: T) => true;
    StableSortRefines(xs, before, any);
    var r := StableSort(xs, before);
    forall i, j | 0 <= i < j < |r| ensures !before(r[j], r[i]) {
      assert Lex(before, any, r[i], r[j]);
    }
  }

  // -- counting ----------------------------------------------------------

  function Count<T>(xs: seq<T>, p: T -> bool): nat {
    if xs == [] then 0 else (if p(xs[0]) then 1 else 0) + Count(xs[1..], p)
  }

  lemma {:induction false} CountConcat<T>(a: seq<T>, b: seq<T>, p: T -> bool)
    ensures Count(a + b, p) == Count(a, p) + Count(b, p)
  {
    if a == [] {
      assert a + b == b;
    } else {
      CountConcat(a[1..], b, p);
      assert (a + b)[1..] == a[1..] + b;
    }
  }

  lemma {:induction false} CountInsert<T>(x: T, ys: seq<T>, before: (T, T) -> bool, p: T -> bool)
    ensures Count(Insert(x, ys, before), p) == Count(ys, p) + if p(x) then 1 else 0
  {
    if ys == [] || !before(ys[0], x) {
      assert ([x] + ys)[1..] == ys;
    } else {
      CountInsert(x, ys[1..], before, p);
      assert ([ys[0]] + Insert(x, ys[1..], before))[1..] == Insert(x, ys[1..], before);
    }
  }

  lemma {:induction false} CountSorted<T>(xs: seq<T>, before: (T, T) -> bool, p: T -> bool)
    ensures Count(StableSort(xs, before), p) == Count(xs, p)
  {
    if xs != [] {
      CountSorted(xs[1..], before, p);
      CountInsert(xs[0], StableSort(xs[1..], before), before, p);
    }
  }

  lemma {:induction false} CountMonotone<T>(xs: seq<T>, p: T -> bool, q: T -> bool)
    requires forall x :: x in xs && p(x) ==> q(x)
    ensures Count(xs, p) <= Count(xs, q) <= |xs|
  {
    if xs != [] {
      CountMonotone(xs[1..], p, q);
    }
  }

  lemma {:induction false} CountNone<T>(xs: seq<T>, p: T -> bool)
    requires forall x :: x in xs ==> !p(x)
    ensures Count(xs, p) == 0
  {
    if xs != [] {
      CountNone(xs[1..], p);
    }
  }

  lemma {:induction false} CountFinds<T>(xs: seq<T>, p: T -> bool) returns (i: nat)
    requires Count(xs, p) > 0
    ensures i < |xs| && p(xs[i])
  {
    if p(xs[0]) {
      i := 0;
    } else {
      i := CountFinds(xs[1..], p);
      i := i + 1;
    }
  }

  lemma {:induction false} CountFindsTwo<T>(xs: seq<T>, p: T -> bool) returns (i: nat, j: nat)
    requires Count(xs, p) > 1
    ensures i < j < |xs| && p(xs[i]) && p(xs[j])
  {
    if p(xs[0]) {
      i := 0;
      j := CountFinds(xs[1..], p);
    } else {
      i, j := CountFindsTwo(xs[1..], p);
      i := i + 1;
    }
    j := j + 1;
  }

  lemma {:induction false} CountUpdate<T>(xs: seq<T>, k: nat, x: T, p: T -> bool)
    requires k < |xs|
    ensures Count(xs[k := x], p) + (if p(xs[k]) then 1 else 0) == Count(xs, p) + if p(x) then 1 else 0
  {
    if k == 0 {
      assert xs[0 := x][1..] == xs[1..];
    } else {
      assert xs[k := x][1..] == xs[1..][k - 1 := x];
      CountUpdate(xs[1..], k - 1, x, p);
    }
  }

  lemma CountAppend<T>(xs: seq<T>, x: T, p: T -> bool)
    ensures Count(xs + [x], p) == Count(xs, p) + if p(x) then 1 else 0
  {
    CountConcat(xs, [x], p);
  }
}
