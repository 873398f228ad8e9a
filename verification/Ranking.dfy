// sorted(items, key=score, reverse=True): the stable descending sort that
// fusion, graph search and reranking all end with.

module Ranking {
  ghost predicate Distinct<T(!new)>(xs: seq<T>) {
    forall i, j | 0 <= i < j < |xs| :: xs[i] != xs[j]
  }

  // Some occurrence of `a` comes before some occurrence of `b`.
  ghost predicate Before<T(!new)>(xs: seq<T>, a: T, b: T) {
    exists i, j | 0 <= i < j < |xs| :: xs[i] == a && xs[j] == b
  }

  ghost predicate Descending<T(!new)>(xs: seq<T>, score: T -> real) {
    forall i, j | 0 <= i < j < |xs| :: score(xs[i]) >= score(xs[j])
  }

  function InsertRanked<T>(x: T, ranked: seq<T>, score: T -> real): seq<T> {
    if ranked == [] || score(ranked[0]) <= score(x) then [x] + ranked
    else [ranked[0]] + InsertRanked(x, ranked[1..], score)
  }

  function SortDescending<T>(xs: seq<T>, score: T -> real): seq<T> {
    if xs == [] then [] else InsertRanked(xs[0], SortDescending(xs[1..], score), score)
  }

  // ----- Same items, in descending order -----

  lemma {:induction false} InsertKeepsItems<T(!new)>(x: T, ranked: seq<T>, score: T -> real)
    ensures multiset(InsertRanked(x, ranked, score)) == multiset{x} + multiset(ranked)
    ensures |InsertRanked(x, ranked, score)| == |ranked| + 1
  {
    if ranked == [] || score(ranked[0]) <= score(x) {
    } else {
      InsertKeepsItems(x, ranked[1..], score);
      assert ranked == [ranked[0]] + ranked[1..];
    }
  }

  lemma {:induction false} SortKeepsItems<T(!new)>(xs: seq<T>, score: T -> real)
    ensures multiset(SortDescending(xs, score)) == multiset(xs)
    ensures |SortDescending(xs, score)| == |xs|
  {
    if xs != [] {
      SortKeepsItems(xs[1..], score);
      InsertKeepsItems(xs[0], SortDescending(xs[1..], score), score);
      assert xs == [xs[0]] + xs[1..];
    }
  }

  lemma InsertMember<T(!new)>(x: T, ranked: seq<T>, score: T -> real, y: T)
    ensures y in InsertRanked(x, ranked, score) <==> y == x || y in ranked
  {
    InsertKeepsItems(x, ranked, score);
    assert y in InsertRanked(x, ranked, score) <==> y in multiset(InsertRanked(x, ranked, score));
  }

  lemma SortMember<T(!new)>(xs: seq<T>, score: T -> real, y: T)
    ensures y in SortDescending(xs, score) <==> y in xs
  {
    SortKeepsItems(xs, score);
    assert y in SortDescending(xs, score) <==> y in multiset(SortDescending(xs, score));
  }

  lemma {:induction false} InsertIsDescending<T(!new)>(x: T, ranked: seq<T>, score: T -> real)
    requires Descending(ranked, score)
    ensures Descending(InsertRanked(x, ranked, score), score)
  {
    if ranked == [] || score(ranked[0]) <= score(x) {
    } else {
      var rest := InsertRanked(x, ranked[1..], score);
      InsertIsDescending(x, ranked[1..], score);
      forall i | 0 <= i < |rest| ensures score(rest[i]) <= score(ranked[0]) {
        InsertMember(x, ranked[1..], score, rest[i]);
      }
    }
  }

  lemma {:induction false} SortIsDescending<T(!new)>(xs: seq<T>, score: T -> real)
    ensures Descending(SortDescending(xs, score), score)
  {
    if xs != [] {
      SortIsDescending(xs[1..], score);
      InsertIsDescending(xs[0], SortDescending(xs[1..], score), score);
    }
  }

  // ----- Stability -----

  lemma {:induction false} InsertKeepsBefore<T(!new)>(x: T, ranked: seq<T>, score: T -> real, a: T, b: T)
    requires Before(ranked, a, b)
    ensures Before(InsertRanked(x, ranked, score), a, b)
  {
    var i, j :| 0 <= i < j < |ranked| && ranked[i] == a && ranked[j] == b;
    if score(ranked[0]) <= score(x) {
      assert ([x] + ranked)[i + 1] == a && ([x] + ranked)[j + 1] == b;
    } else {
      var rest := InsertRanked(x, ranked[1..], score);
      if i == 0 {
        assert ranked[1..][j - 1] == b;
        InsertMember(x, ranked[1..], score, b);
        var m :| 0 <= m < |rest| && rest[m] == b;
        assert ([ranked[0]] + rest)[0] == a && ([ranked[0]] + rest)[m + 1] == b;
      } else {
        assert ranked[1..][i - 1] == a && ranked[1..][j - 1] == b;
        InsertKeepsBefore(x, ranked[1..], score, a, b);
        var m, n :| 0 <= m < n < |rest| && rest[m] == a && rest[n] == b;
        assert ([ranked[0]] + rest)[m + 1] == a && ([ranked[0]] + rest)[n + 1] == b;
      }
    }
  }

  lemma {:induction false} InsertGoesAhead<T(!new)>(x: T, ranked: seq<T>, score: T -> real, b: T)
    requires b in ranked && score(b) <= score(x)
    ensures Before(InsertRanked(x, ranked, score), x, b)
  {
    if score(ranked[0]) <= score(x) {
      var j :| 0 <= j < |ranked| && ranked[j] == b;
      assert ([x] + ranked)[0] == x && ([x] + ranked)[j + 1] == b;
    } else {
      var rest := InsertRanked(x, ranked[1..], score);
      InsertGoesAhead(x, ranked[1..], score, b);
      var m, n :| 0 <= m < n < |rest| && rest[m] == x && rest[n] == b;
      assert ([ranked[0]] + rest)[m + 1] == x && ([ranked[0]] + rest)[n + 1] == b;
    }
  }

  lemma {:induction false} SortKeepsTies<T(!new)>(xs: seq<T>, score: T -> real, a: T, b: T)
    requires Before(xs, a, b) && score(b) <= score(a)
    ensures Before(SortDescending(xs, score), a, b)
  {
    var i, j :| 0 <= i < j < |xs| && xs[i] == a && xs[j] == b;
    var rest := SortDescending(xs[1..], score);
    assert xs[1..][j - 1] == b;
    if i == 0 {
      SortMember(xs[1..], score, b);
      InsertGoesAhead(xs[0], rest, score, b);
    } else {
      assert xs[1..][i - 1] == a;
      SortKeepsTies(xs[1..], score, a, b);
      InsertKeepsBefore(xs[0], rest, score, a, b);
    }
  }

  // ----- What the sort means for items without repetition -----

  lemma DistinctIffCounts<T(!new)>(xs: seq<T>)
    ensures Distinct(xs) <==> forall x :: multiset(xs)[x] <= 1
  {
    if Distinct(xs) {
      forall x ensures multiset(xs)[x] <= 1 {
        DistinctCount(xs, x);
      }
    } else {
      var i, j :| 0 <= i < j < |xs| && xs[i] == xs[j];
      assert xs == xs[..j] + [xs[j]] + xs[j + 1..];
      assert xs[i] in xs[..j];
      assert multiset(xs)[xs[i]] >= multiset(xs[..j])[xs[i]] + 1;
    }
  }

  lemma {:induction false} DistinctCount<T(!new)>(xs: seq<T>, x: T)
    requires Distinct(xs)
    ensures multiset(xs)[x] <= 1
  {
    if xs != [] {
      DistinctCount(xs[1..], x);
      assert xs == [xs[0]] + xs[1..];
      assert xs[0] !in xs[1..];
    }
  }

  lemma SortIsDistinct<T(!new)>(xs: seq<T>, score: T -> real)
    requires Distinct(xs)
    ensures Distinct(SortDescending(xs, score))
  {
    SortKeepsItems(xs, score);
    DistinctIffCounts(xs);
    DistinctIffCounts(SortDescending(xs, score));
  }

  lemma BeforeIsAntisymmetric<T(!new)>(xs: seq<T>, a: T, b: T)
    requires Distinct(xs) && Before(xs, a, b)
    ensures a != b && !Before(xs, b, a)
  {
  }

  lemma BeforeIsTotal<T(!new)>(xs: seq<T>, a: T, b: T)
    requires a in xs && b in xs && a != b
    ensures Before(xs, a, b) || Before(xs, b, a)
  {
    var i :| 0 <= i < |xs| && xs[i] == a;
    var j :| 0 <= j < |xs| && xs[j] == b;
    assert i < j || j < i;
  }

  lemma BeforeInTail<T(!new)>(xs: seq<T>, a: T, b: T)
    requires xs != [] && Before(xs[1..], a, b)
    ensures Before(xs, a, b)
  {
    var i, j :| 0 <= i < j < |xs[1..]| && xs[1..][i] == a && xs[1..][j] == b;
    assert xs[i + 1] == a && xs[j + 1] == b;
  }

  lemma BeforeFromHead<T(!new)>(xs: seq<T>, b: T)
    requires xs != [] && b in xs[1..]
    ensures Before(xs, xs[0], b)
  {
    var j :| 0 <= j < |xs[1..]| && xs[1..][j] == b;
    assert xs[0] == xs[0] && xs[j + 1] == b;
  }

  ghost predicate Outranks<T(!new)>(xs: seq<T>, score: T -> real, a: T, b: T) {
    score(a) > score(b) || (score(a) == score(b) && Before(xs, a, b))
  }

  // `a` precedes `b` exactly when it scores higher, or equal and it came first.
  lemma SortedBefore<T(!new)>(xs: seq<T>, score: T -> real, a: T, b: T)
    requires Distinct(xs) && a in xs && b in xs && a != b
    ensures Before(SortDescending(xs, score), a, b) <==> Outranks(xs, score, a, b)
  {
    if score(a) > score(b) {
      HigherComesFirst(xs, score, a, b);
    } else if score(b) > score(a) {
      HigherComesFirst(xs, score, b, a);
    } else {
      BeforeIsTotal(xs, a, b);
      if Before(xs, a, b) {
        BeforeIsAntisymmetric(xs, a, b);
        SortKeepsTies(xs, score, a, b);
      } else {
        SortKeepsTies(xs, score, b, a);
      }
    }
    SortIsDistinct(xs, score);
    var sorted := SortDescending(xs, score);
    if Before(sorted, a, b) {
      BeforeIsAntisymmetric(sorted, a, b);
    } else if Before(sorted, b, a) {
      BeforeIsAntisymmetric(sorted, b, a);
    }
  }

  lemma HigherComesFirst<T(!new)>(xs: seq<T>, score: T -> real, a: T, b: T)
    requires a in xs && b in xs && score(a) > score(b)
    ensures Before(SortDescending(xs, score), a, b)
  {
    var sorted := SortDescending(xs, score);
    SortIsDescending(xs, score);
    SortMember(xs, score, a);
    SortMember(xs, score, b);
    BeforeIsTotal(sorted, a, b);
  }

  // A prefix that holds `b` holds everything before `b`.
  lemma PrefixKeepsBefore<T(!new)>(xs: seq<T>, n: nat, a: T, b: T)
    requires Distinct(xs) && Before(xs, a, b)
    requires n <= |xs| && b in xs[..n]
    ensures Before(xs[..n], a, b)
  {
    var i, j :| 0 <= i < j < |xs| && xs[i] == a && xs[j] == b;
    var m :| 0 <= m < n && xs[..n][m] == b;
    assert m == j;
    assert xs[..n][i] == a && xs[..n][j] == b;
  }

  // A slice up to n, or everything if there is less.
  function Take<T>(xs: seq<T>, n: nat): seq<T> {
    if n <= |xs| then xs[..n] else xs
  }
}
