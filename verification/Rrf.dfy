// Reciprocal Rank Fusion (app/retrieval/service.py:112-123).

module Rrf {
  import opened Multiples
  import opened Options
  import opened Ranking

  // A chunk id: a UUID as the integer it stands for.
  type Id = int

  const RRF_K: nat := 60

  // ----- The score of an item -----

  function Reciprocal(n: nat): (r: real)
    requires n >= 1
    ensures r > 0.0
  {
    1.0 / n as real
  }

  // What the first n places of one ranking give an item; repeated items count repeatedly.
  function Contribution(ranking: seq<Id>, n: nat, k: nat, item: Id): (r: real)
    requires n <= |ranking|
    ensures r >= 0.0
  {
    if n == 0 then 0.0
    else Contribution(ranking, n - 1, k, item) + if ranking[n - 1] == item then Reciprocal(k + n) else 0.0
  }

  // Sum over the first n rankings.
  function Score(rankings: seq<seq<Id>>, n: nat, k: nat, item: Id): (r: real)
    requires n <= |rankings|
    ensures r >= 0.0
  {
    if n == 0 then 0.0
    else Score(rankings, n - 1, k, item) + Contribution(rankings[n - 1], |rankings[n - 1]|, k, item)
  }

  function Total(rankings: seq<seq<Id>>, k: nat, item: Id): real {
    Score(rankings, |rankings|, k, item)
  }

  // ----- The items in order of first appearance -----

  function Seen(order: seq<Id>, items: seq<Id>): seq<Id>
    decreases |items|
  {
    if items == [] then order
    else Seen(if items[0] in order then order else order + [items[0]], items[1..])
  }

  function SeenAll(order: seq<Id>, rankings: seq<seq<Id>>): seq<Id>
    decreases |rankings|
  {
    if rankings == [] then order else SeenAll(Seen(order, rankings[0]), rankings[1..])
  }

  function Fused(rankings: seq<seq<Id>>, k: nat): seq<Id> {
    SortDescending(SeenAll([], rankings), (item: Id) => Total(rankings, k, item))
  }

  // ----- The loop -----

  // The dict of scores: its keys in insertion order and their values.
  datatype Scores = Scores(order: seq<Id>, values: map<Id, real>)

  // What the dict holds after m rankings and n places of the next one.
  ghost predicate Accumulated(scores: Scores, rankings: seq<seq<Id>>, m: nat, n: nat, k: nat)
    requires m < |rankings| && n <= |rankings[m]|
  {
    && (forall x :: x in scores.order <==> x in scores.values)
    && (forall x | x in scores.values ::
          scores.values[x] == Score(rankings, m, k, x) + Contribution(rankings[m], n, k, x))
    && (forall x | x !in scores.values ::
          Score(rankings, m, k, x) == 0.0 && Contribution(rankings[m], n, k, x) == 0.0)
  }

  ghost predicate Complete(scores: Scores, rankings: seq<seq<Id>>, m: nat, k: nat)
    requires m <= |rankings|
  {
    && (forall x :: x in scores.order <==> x in scores.values)
    && (forall x | x in scores.values :: scores.values[x] == Score(rankings, m, k, x))
    && (forall x | x !in scores.values :: Score(rankings, m, k, x) == 0.0)
  }

  // scores[item] = scores.get(item, 0.0) + amount
  function AddTo(scores: Scores, item: Id, amount: real): Scores {
    var present := item in scores.values;
    Scores(if present then scores.order else scores.order + [item],
      scores.values[item := (if present then scores.values[item] else 0.0) + amount])
  }

  lemma AddPlace(scores: Scores, rankings: seq<seq<Id>>, m: nat, n: nat, k: nat)
    requires m < |rankings| && n < |rankings[m]| && Accumulated(scores, rankings, m, n, k)
    ensures Accumulated(AddTo(scores, rankings[m][n], Reciprocal(k + n + 1)), rankings, m, n + 1, k)
  {
    hide Reciprocal, Score;
    var item := rankings[m][n];
    var next := AddTo(scores, item, Reciprocal(k + n + 1));
    assert forall x | x != item :: Contribution(rankings[m], n + 1, k, x) == Contribution(rankings[m], n, k, x);
    assert Contribution(rankings[m], n + 1, k, item) == Contribution(rankings[m], n, k, item) + Reciprocal(k + n + 1);
  }

  lemma AddSeen(scores: Scores, items: seq<Id>, n: nat, amount: real)
    requires n < |items| && forall x :: x in scores.order <==> x in scores.values
    ensures Seen(AddTo(scores, items[n], amount).order, items[n + 1..]) == Seen(scores.order, items[n..])
  {
    assert items[n..][0] == items[n] && items[n..][1..] == items[n + 1..];
  }

  method RrfFuse(rankings: seq<seq<Id>>, k: Option<nat>) returns (fused: seq<Id>)
    ensures fused == Fused(rankings, if k.Some? then k.value else RRF_K)
  {
    hide Reciprocal, Score, Contribution, SortDescending;
    var kk := if k.Some? then k.value else RRF_K;
    var scores := Scores([], map[]);
    NothingScored(rankings, kk);
    for m := 0 to |rankings|
      invariant Complete(scores, rankings, m, kk)
      invariant SeenAll(scores.order, rankings[m..]) == SeenAll([], rankings)
    {
      var ranking := rankings[m];
      ghost var before := scores.order;
      RankingStarts(scores, rankings, m, kk);
      for n := 0 to |ranking|
        invariant Accumulated(scores, rankings, m, n, kk)
        invariant Seen(scores.order, ranking[n..]) == Seen(before, ranking)
      {
        AddPlace(scores, rankings, m, n, kk);
        AddSeen(scores, ranking, n, Reciprocal(kk + n + 1));
        scores := AddTo(scores, ranking[n], Reciprocal(kk + n + 1));
      }
      RankingEnds(scores, rankings, m, kk);
      assert ranking[|ranking|..] == [] && scores.order == Seen(before, ranking);
    }
    assert rankings[|rankings|..] == [];
    var final := scores;
    SameScoresSameOrder(final.order, item => if item in final.values then final.values[item] else 0.0,
      item => Total(rankings, kk, item));
    fused := SortDescending(final.order, item => if item in final.values then final.values[item] else 0.0);
  }

  lemma NothingScored(rankings: seq<seq<Id>>, k: nat)
    ensures Complete(Scores([], map[]), rankings, 0, k)
    ensures rankings[0..] == rankings
  {
  }

  lemma RankingStarts(scores: Scores, rankings: seq<seq<Id>>, m: nat, k: nat)
    requires m < |rankings| && Complete(scores, rankings, m, k)
    ensures Accumulated(scores, rankings, m, 0, k)
    ensures rankings[m][0..] == rankings[m]
    ensures SeenAll(scores.order, rankings[m..]) == SeenAll(Seen(scores.order, rankings[m]), rankings[m + 1..])
  {
    assert rankings[m..][0] == rankings[m] && rankings[m..][1..] == rankings[m + 1..];
  }

  lemma RankingEnds(scores: Scores, rankings: seq<seq<Id>>, m: nat, k: nat)
    requires m < |rankings| && Accumulated(scores, rankings, m, |rankings[m]|, k)
    ensures Complete(scores, rankings, m + 1, k)
  {
  }

  lemma {:induction false} SameScoresSameOrder(xs: seq<Id>, f: Id -> real, g: Id -> real)
    requires forall x | x in xs :: f(x) == g(x)
    ensures SortDescending(xs, f) == SortDescending(xs, g)
  {
    if xs != [] {
      SameScoresSameOrder(xs[1..], f, g);
      SortMembers(xs[1..], f);
      var ranked := SortDescending(xs[1..], f);
      forall i | 0 <= i < |ranked| ensures f(ranked[i]) == g(ranked[i]) {
        var y := ranked[i];
        assert y in ranked && y in xs;
      }
      SameInsert(xs[0], ranked, f, g);
    }
  }

  lemma SortMembers(xs: seq<Id>, f: Id -> real)
    ensures forall x :: x in SortDescending(xs, f) <==> x in xs
  {
    forall x ensures x in SortDescending(xs, f) <==> x in xs {
      SortMember(xs, f, x);
    }
  }

  lemma {:induction false} SameInsert(x: Id, ranked: seq<Id>, f: Id -> real, g: Id -> real)
    requires f(x) == g(x)
    requires forall i | 0 <= i < |ranked| :: f(ranked[i]) == g(ranked[i])
    ensures InsertRanked(x, ranked, f) == InsertRanked(x, ranked, g)
  {
    if ranked == [] {
      assert InsertRanked(x, ranked, f) == [x] + ranked == InsertRanked(x, ranked, g);
    } else {
      SameInsert(x, ranked[1..], f, g);
    }
  }

  // ----- The fused list: all items, once, by score, ties by first appearance -----

  lemma {:induction false} SeenFacts(order: seq<Id>, items: seq<Id>)
    ensures order <= Seen(order, items)
    ensures Distinct(order) ==> Distinct(Seen(order, items))
    ensures forall x :: x in Seen(order, items) <==> x in order || x in items
    decreases |items|
  {
    if items != [] {
      SeenFacts(if items[0] in order then order else order + [items[0]], items[1..]);
      assert items == [items[0]] + items[1..];
    }
  }

  ghost predicate Occurs(rankings: seq<seq<Id>>, x: Id) {
    exists i | 0 <= i < |rankings| :: x in rankings[i]
  }

  lemma {:induction false} SeenAllFacts(order: seq<Id>, rankings: seq<seq<Id>>)
    ensures order <= SeenAll(order, rankings)
    ensures Distinct(order) ==> Distinct(SeenAll(order, rankings))
    ensures forall x :: x in SeenAll(order, rankings) <==> x in order || Occurs(rankings, x)
    decreases |rankings|
  {
    if rankings != [] {
      SeenFacts(order, rankings[0]);
      SeenAllFacts(Seen(order, rankings[0]), rankings[1..]);
      forall x ensures Occurs(rankings, x) <==> x in rankings[0] || Occurs(rankings[1..], x) {
        OccursSplit(rankings, x);
      }
    }
  }

  lemma OccursSplit(rankings: seq<seq<Id>>, x: Id)
    requires rankings != []
    ensures Occurs(rankings, x) <==> x in rankings[0] || Occurs(rankings[1..], x)
  {
    if Occurs(rankings, x) {
      var i :| 0 <= i < |rankings| && x in rankings[i];
      if i > 0 {
        assert x in rankings[1..][i - 1];
      }
    }
    if Occurs(rankings[1..], x) {
      var i :| 0 <= i < |rankings[1..]| && x in rankings[1..][i];
      assert x in rankings[i + 1];
    }
  }

  // The output against its definition.
  lemma FusedMeaning(rankings: seq<seq<Id>>, k: nat, x: Id, y: Id)
    requires Occurs(rankings, x) && Occurs(rankings, y) && x != y
    ensures Distinct(Fused(rankings, k))
    ensures x in Fused(rankings, k) && y in Fused(rankings, k)
    ensures Before(Fused(rankings, k), x, y) <==>
      || Total(rankings, k, x) > Total(rankings, k, y)
      || (Total(rankings, k, x) == Total(rankings, k, y) && Before(SeenAll([], rankings), x, y))
  {
    var items := SeenAll([], rankings);
    var score := (item: Id) => Total(rankings, k, item);
    SeenAllFacts([], rankings);
    SortIsDistinct(items, score);
    SortMember(items, score, x);
    SortMember(items, score, y);
    SortedBefore(items, score, x, y);
  }

  lemma FusedMembers(rankings: seq<seq<Id>>, k: nat)
    ensures Distinct(Fused(rankings, k))
    ensures forall x :: x in Fused(rankings, k) <==> Occurs(rankings, x)
  {
    var items := SeenAll([], rankings);
    var score := (item: Id) => Total(rankings, k, item);
    SeenAllFacts([], rankings);
    SortIsDistinct(items, score);
    SortMembers(items, score);
  }

  // ----- Scores do not depend on the order of the rankings -----

  function Without(rankings: seq<seq<Id>>, i: nat): seq<seq<Id>>
    requires i < |rankings|
  {
    rankings[..i] + rankings[i + 1..]
  }

  lemma {:induction false} ScorePrefix(a: seq<seq<Id>>, b: seq<seq<Id>>, n: nat, k: nat, item: Id)
    requires n <= |a| && n <= |b| && a[..n] == b[..n]
    ensures Score(a, n, k, item) == Score(b, n, k, item)
  {
    if n > 0 {
      assert a[n - 1] == a[..n][n - 1] == b[n - 1];
      assert a[..n - 1] == a[..n][..n - 1] == b[..n - 1];
      ScorePrefix(a, b, n - 1, k, item);
    }
  }

  lemma {:induction false} ScoreWithout(rankings: seq<seq<Id>>, i: nat, n: nat, k: nat, item: Id)
    requires i < n <= |rankings|
    ensures Score(rankings, n, k, item)
         == Contribution(rankings[i], |rankings[i]|, k, item) + Score(Without(rankings, i), n - 1, k, item)
    decreases n
  {
    var w := Without(rankings, i);
    if n == i + 1 {
      ScorePrefix(rankings, w, i, k, item);
    } else {
      ScoreWithout(rankings, i, n - 1, k, item);
      assert w[n - 2] == rankings[n - 1];
    }
  }

  lemma RemoveOne(a: seq<seq<Id>>, b: seq<seq<Id>>) returns (i: nat)
    requires a != [] && multiset(a) == multiset(b)
    ensures i < |b| && b[i] == a[0] && |a| == |b|
    ensures multiset(a[1..]) == multiset(Without(b, i))
  {
    assert |a| == |multiset(a)| == |multiset(b)| == |b|;
    assert a[0] in multiset(b);
    i :| 0 <= i < |b| && b[i] == a[0];
    assert a == [a[0]] + a[1..];
    assert multiset(a) == multiset{a[0]} + multiset(a[1..]);
    assert b == b[..i] + [b[i]] + b[i + 1..];
    assert multiset(b) == multiset(b[..i]) + multiset{b[i]} + multiset(b[i + 1..]);
    assert multiset(Without(b, i)) == multiset(b[..i]) + multiset(b[i + 1..]);
    assert multiset(a[1..]) == multiset(a) - multiset{a[0]};
    assert multiset(Without(b, i)) == multiset(b) - multiset{b[i]};
  }

  lemma {:induction false} TotalIsSymmetric(a: seq<seq<Id>>, b: seq<seq<Id>>, k: nat, item: Id)
    requires multiset(a) == multiset(b)
    ensures Total(a, k, item) == Total(b, k, item)
    decreases |a|
  {
    hide Score, Contribution;
    if a != [] {
      var i := RemoveOne(a, b);
      assert Without(a, 0) == a[1..];
      TotalIsSymmetric(a[1..], Without(b, i), k, item);
      ScoreWithout(a, 0, |a|, k, item);
      ScoreWithout(b, i, |b|, k, item);
    } else {
      assert |multiset(b)| == |b|;
      EmptyTotal(k, item);
    }
  }

  lemma EmptyTotal(k: nat, item: Id)
    ensures Total([], k, item) == 0.0
  {
  }

  // ----- Duplicate-free rankings -----

  ghost predicate DuplicateFree(rankings: seq<seq<Id>>) {
    forall i | 0 <= i < |rankings| :: Distinct(rankings[i])
  }

  lemma {:induction false} NoContribution(ranking: seq<Id>, n: nat, k: nat, item: Id)
    requires n <= |ranking| && item !in ranking[..n]
    ensures Contribution(ranking, n, k, item) == 0.0
  {
    if n > 0 {
      assert ranking[n - 1] == ranking[..n][n - 1];
      assert forall x | x in ranking[..n - 1] :: x in ranking[..n];
      NoContribution(ranking, n - 1, k, item);
    }
  }

  // In a duplicate-free ranking an item gives the reciprocal of its place.
  lemma {:induction false} OneContribution(ranking: seq<Id>, n: nat, k: nat, p: nat)
    requires Distinct(ranking) && p < n <= |ranking|
    ensures Contribution(ranking, n, k, ranking[p]) == Reciprocal(k + p + 1)
    decreases n
  {
    if n == p + 1 {
      NoContribution(ranking, p, k, ranking[p]);
    } else {
      OneContribution(ranking, n - 1, k, p);
    }
  }

  lemma ReciprocalOrder(a: nat, b: nat)
    requires 1 <= a <= b
    ensures Reciprocal(b) <= Reciprocal(a)
    ensures a < b ==> Reciprocal(b) < Reciprocal(a)
  {
  }

  // ----- Dominance -----

  // x is ahead of y in every ranking that holds y.
  ghost predicate Dominates(rankings: seq<seq<Id>>, x: Id, y: Id) {
    forall i | 0 <= i < |rankings| && y in rankings[i] :: Before(rankings[i], x, y)
  }

  lemma DominantContribution(ranking: seq<Id>, k: nat, x: Id, y: Id)
    requires Distinct(ranking)
    requires y in ranking ==> Before(ranking, x, y)
    ensures Contribution(ranking, |ranking|, k, x) >= Contribution(ranking, |ranking|, k, y)
    ensures y in ranking ==> Contribution(ranking, |ranking|, k, x) > Contribution(ranking, |ranking|, k, y)
  {
    if y in ranking {
      var i, j :| 0 <= i < j < |ranking| && ranking[i] == x && ranking[j] == y;
      OneContribution(ranking, |ranking|, k, i);
      OneContribution(ranking, |ranking|, k, j);
      ReciprocalOrder(k + i + 1, k + j + 1);
    } else {
      assert ranking[..|ranking|] == ranking;
      NoContribution(ranking, |ranking|, k, y);
    }
  }

  lemma {:induction false} DominantScore(rankings: seq<seq<Id>>, n: nat, k: nat, x: Id, y: Id)
    requires n <= |rankings| && DuplicateFree(rankings) && Dominates(rankings, x, y)
    ensures Score(rankings, n, k, x) >= Score(rankings, n, k, y)
    ensures (exists i | 0 <= i < n :: y in rankings[i]) ==> Score(rankings, n, k, x) > Score(rankings, n, k, y)
  {
    if n > 0 {
      DominantScore(rankings, n - 1, k, x, y);
      DominantContribution(rankings[n - 1], k, x, y);
    }
  }

  // An item ahead of another wherever the latter is ranked precedes it.
  lemma DominanceIsKept(rankings: seq<seq<Id>>, k: nat, x: Id, y: Id)
    requires DuplicateFree(rankings) && Dominates(rankings, x, y) && Occurs(rankings, y)
    ensures Before(Fused(rankings, k), x, y)
  {
    var i :| 0 <= i < |rankings| && y in rankings[i];
    assert Before(rankings[i], x, y);
    assert Occurs(rankings, x);
    DominantScore(rankings, |rankings|, k, x, y);
    FusedMeaning(rankings, k, x, y);
  }

  // ----- Consensus -----

  // How many of the first n rankings hold the item.
  function SupportIn(rankings: seq<seq<Id>>, n: nat, item: Id): nat
    requires n <= |rankings|
  {
    if n == 0 then 0 else SupportIn(rankings, n - 1, item) + if item in rankings[n - 1] then 1 else 0
  }

  function Support(rankings: seq<seq<Id>>, item: Id): nat {
    SupportIn(rankings, |rankings|, item)
  }

  ghost predicate ShortRankings(rankings: seq<seq<Id>>, maxLength: nat) {
    forall i | 0 <= i < |rankings| :: |rankings[i]| <= maxLength
  }

  lemma ContributionBounds(ranking: seq<Id>, maxLength: nat, k: nat, item: Id)
    requires Distinct(ranking) && |ranking| <= maxLength
    ensures item !in ranking ==> Contribution(ranking, |ranking|, k, item) == 0.0
    ensures item in ranking ==>
      Reciprocal(k + maxLength) <= Contribution(ranking, |ranking|, k, item) <= Reciprocal(k + 1)
  {
    if item in ranking {
      var p :| 0 <= p < |ranking| && ranking[p] == item;
      OneContribution(ranking, |ranking|, k, p);
      ReciprocalOrder(k + 1, k + p + 1);
      ReciprocalOrder(k + p + 1, k + maxLength);
    } else {
      assert ranking[..|ranking|] == ranking;
      NoContribution(ranking, |ranking|, k, item);
    }
  }

  lemma {:induction false} TimesMonotone(m: nat, n: nat, x: real)
    requires m <= n && x >= 0.0
    ensures Times(m, x) <= Times(n, x)
    decreases n
  {
    if m < n {
      TimesMonotone(m, n - 1, x);
    }
  }

  lemma {:induction false} ScoreBounds(rankings: seq<seq<Id>>, n: nat, maxLength: nat, k: nat, item: Id)
    requires n <= |rankings| && DuplicateFree(rankings) && ShortRankings(rankings, maxLength) && maxLength >= 1
    ensures Times(SupportIn(rankings, n, item), Reciprocal(k + maxLength))
         <= Score(rankings, n, k, item)
         <= Times(SupportIn(rankings, n, item), Reciprocal(k + 1))
  {
    hide Reciprocal, Contribution;
    if n > 0 {
      ScoreBounds(rankings, n - 1, maxLength, k, item);
      ContributionBounds(rankings[n - 1], maxLength, k, item);
    }
  }

  predicate CrossLess(m: nat, a: nat, b: nat) {
    m as real * b as real < (m + 1) as real * a as real
  }

  // m / a < (m + 1) / b exactly when m * b < (m + 1) * a.
  lemma Fractions(m: nat, a: nat, b: nat)
    requires a >= 1 && b >= 1
    ensures Times(m, Reciprocal(a)) < Times(m + 1, Reciprocal(b)) <==> m * b < (m + 1) * a
  {
    hide Times, Reciprocal, CrossLess;
    RealFractions(m, a, b);
    ProductsAgree(m, a, b);
  }

  lemma RealFractions(m: nat, a: nat, b: nat)
    requires a >= 1 && b >= 1
    ensures Times(m, Reciprocal(a)) < Times(m + 1, Reciprocal(b)) <==> CrossLess(m, a, b)
  {
    hide Times, Reciprocal;
    FractionOf(m, a);
    FractionOf(m + 1, b);
    CrossMultiply(m as real, (m + 1) as real, a as real, b as real);
  }

  lemma FractionOf(n: nat, a: nat)
    requires a >= 1
    ensures Times(n, Reciprocal(a)) == n as real * (1.0 / a as real)
  {
    TimesIsProduct(n, Reciprocal(a));
  }

  lemma ProductsAgree(m: nat, a: nat, b: nat)
    ensures CrossLess(m, a, b) <==> m * b < (m + 1) * a
  {
    assert m as real * b as real == (m * b) as real;
    assert (m + 1) as real * a as real == ((m + 1) * a) as real;
  }

  lemma CrossMultiply(x: real, y: real, a: real, b: real)
    requires a > 0.0 && b > 0.0
    ensures x * (1.0 / a) < y * (1.0 / b) <==> x * b < y * a
  {
    var left, right := x * (1.0 / a), y * (1.0 / b);
    Scale(left, right, a * b);
    assert left * (a * b) == x * b by { Cancel(x, a, b); }
    assert right * (a * b) == y * a by { Cancel(y, b, a); assert a * b == b * a; }
  }

  lemma Cancel(x: real, a: real, b: real)
    requires a > 0.0
    ensures (x * (1.0 / a)) * (a * b) == x * b
  {
    assert (1.0 / a) * a == 1.0;
    assert (x * (1.0 / a)) * (a * b) == x * ((1.0 / a) * a) * b;
  }

  lemma Scale(x: real, y: real, c: real)
    requires c > 0.0
    ensures x < y <==> x * c < y * c
  {
    if x < y {
      assert (y - x) * c > 0.0;
    } else {
      assert (x - y) * c >= 0.0;
    }
  }

  lemma {:induction false} SupportOccurs(rankings: seq<seq<Id>>, n: nat, item: Id)
    requires n <= |rankings|
    ensures SupportIn(rankings, n, item) > 0 <==> exists i | 0 <= i < n :: item in rankings[i]
  {
    if n > 0 {
      SupportOccurs(rankings, n - 1, item);
    }
  }

  lemma ThresholdArithmetic(m: nat, k: nat, maxLength: nat)
    ensures m * (k + maxLength) < (m + 1) * (k + 1) <==> m * (maxLength - 1) < k + 1
  {
    assert m * (k + maxLength) == m * (k + 1) + m * (maxLength - 1);
    assert (m + 1) * (k + 1) == m * (k + 1) + (k + 1);
  }

  // Enough agreement beats any position.
  lemma ConsensusWins(rankings: seq<seq<Id>>, k: nat, maxLength: nat, m: nat, x: Id, y: Id)
    requires DuplicateFree(rankings) && ShortRankings(rankings, maxLength)
    requires m * (maxLength - 1) < k + 1
    requires Support(rankings, x) >= m + 1 && 1 <= Support(rankings, y) <= m
    ensures Before(Fused(rankings, k), x, y)
  {
    hide Reciprocal, Times, Fused, Score, SupportIn;
    SupportOccurs(rankings, |rankings|, x);
    SupportOccurs(rankings, |rankings|, y);
    assert Occurs(rankings, x) && Occurs(rankings, y);
    assert maxLength >= 1;
    ScoreBounds(rankings, |rankings|, maxLength, k, x);
    ScoreBounds(rankings, |rankings|, maxLength, k, y);
    TimesMonotone(m + 1, Support(rankings, x), Reciprocal(k + maxLength));
    TimesMonotone(Support(rankings, y), m, Reciprocal(k + 1));
    ThresholdArithmetic(m, k, maxLength);
    Fractions(m, k + 1, k + maxLength);
    FusedMeaning(rankings, k, x, y);
  }

  // ----- The threshold is exact -----

  function Repeat(ranking: seq<Id>, n: nat): (r: seq<seq<Id>>)
    ensures |r| == n && forall i | 0 <= i < n :: r[i] == ranking
  {
    seq(n, i => ranking)
  }

  function UpTo(n: nat): (r: seq<Id>)
    ensures |r| == n && forall i | 0 <= i < n :: r[i] == i + 2
  {
    seq(n, i => i + 2)
  }

  // Item 1 leads m rankings of its own; item 0 comes last in m + 1 full ones.
  function Contested(maxLength: nat, m: nat): seq<seq<Id>>
    requires maxLength >= 1
  {
    Repeat([1], m) + Repeat(UpTo(maxLength - 1) + [0], m + 1)
  }

  lemma LeadingPlace(k: nat)
    ensures Contribution([1], 1, k, 1) == Reciprocal(k + 1) && Contribution([1], 1, k, 0) == 0.0
  {
    OneContribution([1], 1, k, 0);
    NoContribution([1], 1, k, 0);
  }

  lemma LastPlace(maxLength: nat, k: nat)
    requires maxLength >= 1
    ensures var ranking := UpTo(maxLength - 1) + [0];
      && |ranking| == maxLength && Distinct(ranking) && 1 !in ranking && ranking[maxLength - 1] == 0
      && Contribution(ranking, maxLength, k, 1) == 0.0
      && Contribution(ranking, maxLength, k, 0) == Reciprocal(k + maxLength)
  {
    var ranking := UpTo(maxLength - 1) + [0];
    assert ranking[..maxLength] == ranking && 1 !in ranking && ranking[maxLength - 1] == 0;
    NoContribution(ranking, maxLength, k, 1);
    OneContribution(ranking, maxLength, k, maxLength - 1);
  }

  lemma {:induction false} ContestedScores(maxLength: nat, m: nat, n: nat, k: nat)
    requires maxLength >= 1 && n <= 2 * m + 1
    ensures var r, low := Contested(maxLength, m), if n <= m then n else m;
      && SupportIn(r, n, 1) == low && SupportIn(r, n, 0) == n - low
      && Score(r, n, k, 1) == Times(low, Reciprocal(k + 1))
      && Score(r, n, k, 0) == Times(n - low, Reciprocal(k + maxLength))
  {
    hide Reciprocal, Contribution, UpTo;
    var r := Contested(maxLength, m);
    if n > 0 {
      ContestedScores(maxLength, m, n - 1, k);
      if n <= m {
        assert r[n - 1] == [1];
        LeadingPlace(k);
      } else {
        assert r[n - 1] == UpTo(maxLength - 1) + [0];
        LastPlace(maxLength, k);
      }
    }
  }

  lemma ContestedOrder(maxLength: nat, m: nat)
    requires maxLength >= 1 && m >= 1
    ensures Before(SeenAll([], Contested(maxLength, m)), 1, 0)
  {
    var r := Contested(maxLength, m);
    assert r[0] == [1] && r[2 * m] == UpTo(maxLength - 1) + [0];
    assert Seen([], [1]) == Seen([1], [1][1..]) == [1];
    assert SeenAll([], r) == SeenAll([1], r[1..]);
    SeenAllFacts([1], r[1..]);
    assert 0 in r[1..][2 * m - 1] by { assert r[2 * m][maxLength - 1] == 0; }
    assert Occurs(r[1..], 0);
    var order := SeenAll([1], r[1..]);
    assert order[0] == 1;
    assert 0 in order;
  }

  // Whether m + 1 retrievers always beat m of them, for all rankings of at most maxLength items.
  ghost predicate ConsensusAlwaysWins(k: nat, maxLength: nat, m: nat) {
    forall rankings: seq<seq<Id>>, x: Id, y: Id ::
      DuplicateFree(rankings) && ShortRankings(rankings, maxLength)
      && Support(rankings, x) >= m + 1 && 1 <= Support(rankings, y) <= m
      ==> Before(Fused(rankings, k), x, y)
  }

  lemma ThresholdIsTight(k: nat, maxLength: nat, m: nat)
    requires maxLength >= 1 && m * (maxLength - 1) >= k + 1
    ensures !ConsensusAlwaysWins(k, maxLength, m)
  {
    hide Reciprocal, Times, Fused, Score, SupportIn, SeenAll, Contested;
    var r := Contested(maxLength, m);
    assert |r| == 2 * m + 1 && DuplicateFree(r) && ShortRankings(r, maxLength) by { ContestedShape(maxLength, m, k); }
    FactorIsPositive(m, maxLength, k);
    ContestedScores(maxLength, m, 2 * m + 1, k);
    ContestedOrder(maxLength, m);
    SupportOccurs(r, |r|, 0);
    SupportOccurs(r, |r|, 1);
    ThresholdArithmetic(m, k, maxLength);
    Fractions(m, k + 1, k + maxLength);
    FusedMeaning(r, k, 1, 0);
    BeforeIsAntisymmetric(Fused(r, k), 1, 0);
  }

  lemma FactorIsPositive(m: nat, maxLength: nat, k: nat)
    requires m * (maxLength - 1) >= k + 1
    ensures m >= 1
  {
  }

  lemma ContestedShape(maxLength: nat, m: nat, k: nat)
    requires maxLength >= 1
    ensures var r := Contested(maxLength, m); |r| == 2 * m + 1 && DuplicateFree(r) && ShortRankings(r, maxLength)
  {
    LastPlace(maxLength, k);
  }

  // Agreement of m + 1 retrievers beats agreement of m on all rankings of at
  // most maxLength items, exactly when m * (maxLength - 1) < k + 1.
  lemma ConsensusThreshold(k: nat, maxLength: nat, m: nat)
    requires maxLength >= 1
    ensures ConsensusAlwaysWins(k, maxLength, m) <==> m * (maxLength - 1) < k + 1
  {
    if m * (maxLength - 1) < k + 1 {
      forall rankings: seq<seq<Id>>, x: Id, y: Id |
        && DuplicateFree(rankings) && ShortRankings(rankings, maxLength)
        && Support(rankings, x) >= m + 1 && 1 <= Support(rankings, y) <= m
        ensures Before(Fused(rankings, k), x, y)
      {
        ConsensusWins(rankings, k, maxLength, m, x, y);
      }
    } else {
      ThresholdIsTight(k, maxLength, m);
    }
  }

  // The configured search: three sources of at most 20 candidates and k = 60.
  // The fused order, and any cut of it, respects the number of agreeing sources.
  lemma ConfiguredConsensus(rankings: seq<seq<Id>>, x: Id, y: Id, cut: nat)
    requires |rankings| == 3 && DuplicateFree(rankings) && ShortRankings(rankings, 20)
    requires Support(rankings, x) > Support(rankings, y) >= 1
    ensures Before(Fused(rankings, RRF_K), x, y)
    ensures cut <= |Fused(rankings, RRF_K)| && y in Fused(rankings, RRF_K)[..cut] ==> x in Fused(rankings, RRF_K)[..cut]
  {
    SupportIsBounded(rankings, 3, x);
    ConsensusWins(rankings, RRF_K, 20, Support(rankings, y), x, y);
    FusedMembers(rankings, RRF_K);
    if cut <= |Fused(rankings, RRF_K)| && y in Fused(rankings, RRF_K)[..cut] {
      PrefixKeepsBefore(Fused(rankings, RRF_K), cut, x, y);
    }
  }

  lemma {:induction false} SupportIsBounded(rankings: seq<seq<Id>>, n: nat, item: Id)
    requires n <= |rankings|
    ensures SupportIn(rankings, n, item) <= n
  {
    if n > 0 {
      SupportIsBounded(rankings, n - 1, item);
    }
  }
}
