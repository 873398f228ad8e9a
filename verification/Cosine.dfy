// Cosine similarity and mean answer relevancy (app/evaluation/metrics.py) over
// exact reals. A square root is any non-negative number with the right square.

module Cosine {
  import opened Options

  type Vector = seq<real>

  function Times(x: real, y: real): real {
    x * y
  }

  function Dot(a: Vector, b: Vector): real
    requires |a| == |b|
  {
    if a == [] then 0.0 else Times(a[0], b[0]) + Dot(a[1..], b[1..])
  }

  predicate IsNorm(n: real, a: Vector) {
    n >= 0.0 && Times(n, n) == Dot(a, a)
  }

  datatype Failure = LengthMismatch

  // na and nb are the norms of a and b.
  function CosineOf(a: Vector, na: real, b: Vector, nb: real): Result<real, Failure> {
    if |a| != |b| then Err(LengthMismatch)
    else
      var norm := Times(na, nb);
      Ok(if norm != 0.0 then Dot(a, b) / norm else 0.0)
  }

  // ----- The Cauchy-Schwarz inequality -----

  // The square of a[i] * t - b[i], added up.
  function Distance(a: Vector, b: Vector, t: real): real
    requires |a| == |b|
  {
    if a == [] then 0.0 else Times(a[0] * t - b[0], a[0] * t - b[0]) + Distance(a[1..], b[1..], t)
  }

  function Quadratic(p: real, q: real, r: real, t: real): real {
    p * (t * t) - 2.0 * q * t + r
  }

  lemma PositiveProduct(x: real, y: real)
    requires x > 0.0 && y > 0.0
    ensures Times(x, y) > 0.0
  {
  }

  lemma SquareIsPositive(x: real)
    ensures Times(x, x) >= 0.0 && (Times(x, x) == 0.0 ==> x == 0.0)
  {
    if x > 0.0 {
      PositiveProduct(x, x);
    } else if x < 0.0 {
      PositiveProduct(-x, -x);
      SquareOfOpposite(x);
    }
  }

  lemma SquareOfOpposite(x: real)
    ensures Times(-x, -x) == Times(x, x)
  {
    assert (-x) * (-x) == x * x;
  }

  lemma SquareIsQuadratic(x: real, y: real, t: real)
    ensures Times(x * t - y, x * t - y) == Quadratic(Times(x, x), Times(x, y), Times(y, y), t)
  {
    var p := x * t;
    assert (p - y) * (p - y) == p * p - 2.0 * (p * y) + y * y;
    assert p * p == (x * x) * (t * t);
    assert p * y == (x * y) * t;
  }

  lemma QuadraticsAddUp(p: real, q: real, r: real, p': real, q': real, r': real, t: real)
    ensures Quadratic(p + p', q + q', r + r', t) == Quadratic(p, q, r, t) + Quadratic(p', q', r', t)
  {
    var u := t * t;
    assert (p + p') * u == p * u + p' * u;
    assert 2.0 * (q + q') * t == 2.0 * q * t + 2.0 * q' * t;
  }

  lemma {:induction false} DistanceExpands(a: Vector, b: Vector, t: real)
    requires |a| == |b|
    ensures Distance(a, b, t) == Quadratic(Dot(a, a), Dot(a, b), Dot(b, b), t)
  {
    if a == [] {
      assert Quadratic(0.0, 0.0, 0.0, t) == 0.0;
    } else {
      hide Quadratic, Times;
      var x, y := a[0], b[0];
      DistanceExpands(a[1..], b[1..], t);
      SquareIsQuadratic(x, y, t);
      QuadraticsAddUp(
        Times(x, x), Times(x, y), Times(y, y), Dot(a[1..], a[1..]), Dot(a[1..], b[1..]), Dot(b[1..], b[1..]), t);
    }
  }

  predicate Parallel(a: Vector, b: Vector, t: real)
    requires |a| == |b|
  {
    forall i | 0 <= i < |a| :: b[i] == a[i] * t
  }

  lemma ParallelStep(a: Vector, b: Vector, t: real)
    requires |a| == |b| && a != [] && b[0] == a[0] * t && Parallel(a[1..], b[1..], t)
    ensures Parallel(a, b, t)
  {
    forall i | 0 <= i < |a| ensures b[i] == a[i] * t {
      if i > 0 {
        var j := i - 1;
        assert b[1..][j] == a[1..][j] * t;
      }
    }
  }

  lemma {:induction false} DistanceIsPositive(a: Vector, b: Vector, t: real)
    requires |a| == |b|
    ensures Distance(a, b, t) >= 0.0
    ensures Distance(a, b, t) == 0.0 ==> Parallel(a, b, t)
  {
    if a != [] {
      var d := a[0] * t - b[0];
      SquareIsPositive(d);
      hide Parallel, Times;
      DistanceIsPositive(a[1..], b[1..], t);
      if Distance(a, b, t) == 0.0 {
        ParallelStep(a, b, t);
      }
    }
  }

  lemma {:induction false} DotIsPositive(a: Vector)
    ensures Dot(a, a) >= 0.0
    ensures Dot(a, a) == 0.0 ==> forall i | 0 <= i < |a| :: a[i] == 0.0
  {
    if a != [] {
      SquareIsPositive(a[0]);
      hide Times;
      DotIsPositive(a[1..]);
      if Dot(a, a) == 0.0 {
        forall i | 0 <= i < |a| ensures a[i] == 0.0 {
          assert i > 0 ==> a[1..][i - 1] == 0.0;
        }
      }
    }
  }

  lemma {:induction false} DotWithZero(a: Vector, b: Vector)
    requires |a| == |b| && forall i | 0 <= i < |a| :: a[i] == 0.0
    ensures Dot(a, b) == 0.0
  {
    if a != [] {
      DotWithZero(a[1..], b[1..]);
    }
  }

  // The least value of the quadratic, for p > 0.
  lemma LeastOfQuadratic(p: real, q: real, r: real)
    requires p > 0.0
    ensures Quadratic(p, q, r, q / p) * p == r * p - Times(q, q)
  {
    var t := q / p;
    assert t * p == q;
    assert (p * (t * t)) * p == (t * p) * (t * p);
    assert (2.0 * q * t) * p == 2.0 * q * (t * p);
  }

  lemma LeastIsPositive(p: real, q: real, r: real)
    requires p > 0.0 && Quadratic(p, q, r, q / p) >= 0.0
    ensures Times(q, q) <= Times(p, r)
    ensures Times(q, q) == Times(p, r) ==> Quadratic(p, q, r, q / p) == 0.0
  {
    LeastOfQuadratic(p, q, r);
    hide Quadratic;
    var least := Quadratic(p, q, r, q / p);
    if least > 0.0 {
      PositiveProduct(least, p);
    }
  }

  lemma CauchySchwarz(a: Vector, b: Vector)
    requires |a| == |b|
    ensures Times(Dot(a, b), Dot(a, b)) <= Times(Dot(a, a), Dot(b, b))
  {
    hide Quadratic;
    var p, q, r := Dot(a, a), Dot(a, b), Dot(b, b);
    DotIsPositive(a);
    if p == 0.0 {
      DotWithZero(a, b);
    } else {
      hide Dot, Distance, Times, Parallel;
      var t := q / p;
      DistanceExpands(a, b, t);
      DistanceIsPositive(a, b, t);
      LeastIsPositive(p, q, r);
    }
  }

  // Equality makes the vectors parallel.
  lemma CauchySchwarzEquality(a: Vector, b: Vector)
    requires |a| == |b| && Dot(a, a) > 0.0
    requires Times(Dot(a, b), Dot(a, b)) == Times(Dot(a, a), Dot(b, b))
    ensures Parallel(a, b, Dot(a, b) / Dot(a, a))
  {
    hide *;
    var t := Dot(a, b) / Dot(a, a);
    DistanceExpands(a, b, t);
    DistanceIsPositive(a, b, t);
    LeastIsPositive(Dot(a, a), Dot(a, b), Dot(b, b));
  }

  // ----- What the similarity means -----

  lemma SquareOrder(d: real, n: real)
    requires n >= 0.0 && d > n
    ensures Times(d, d) > Times(n, n)
  {
    DifferenceOfSquares(d, n);
    hide Times;
    PositiveProduct(d - n, d + n);
  }

  lemma DifferenceOfSquares(d: real, n: real)
    ensures Times(d - n, d + n) == Times(d, d) - Times(n, n)
  {
    assert (d - n) * (d + n) == d * d - n * n;
  }

  lemma BoundedBySquare(d: real, n: real)
    requires Times(d, d) <= Times(n, n) && n >= 0.0
    ensures -n <= d <= n
  {
    hide Times;
    SquareOfOpposite(d);
    if d > n {
      SquareOrder(d, n);
    } else if -d > n {
      SquareOrder(-d, n);
    }
  }

  lemma QuotientBounds(d: real, n: real)
    requires n > 0.0 && -n <= d <= n
    ensures -1.0 <= d / n <= 1.0
    ensures d / n == 1.0 <==> d == n
  {
    var q := d / n;
    assert q * n == d;
    assert (q - 1.0) * n == d - n;
    assert (q + 1.0) * n == d + n;
  }

  lemma ProductOfNorms(na: real, nb: real)
    ensures Times(Times(na, nb), Times(na, nb)) == Times(Times(na, na), Times(nb, nb))
    ensures na >= 0.0 && nb >= 0.0 ==> Times(na, nb) >= 0.0
  {
    assert (na * nb) * (na * nb) == (na * na) * (nb * nb);
  }

  // The dot product is within the product of the norms.
  lemma DotWithinNorms(a: Vector, na: real, b: Vector, nb: real)
    requires |a| == |b| && IsNorm(na, a) && IsNorm(nb, b)
    ensures -Times(na, nb) <= Dot(a, b) <= Times(na, nb)
  {
    CauchySchwarz(a, b);
    hide Dot, Times;
    ProductOfNorms(na, nb);
    BoundedBySquare(Dot(a, b), Times(na, nb));
  }

  // For vectors of equal length the similarity is between -1 and 1.
  lemma CosineBounds(a: Vector, na: real, b: Vector, nb: real)
    requires |a| == |b| && IsNorm(na, a) && IsNorm(nb, b)
    ensures CosineOf(a, na, b, nb).Ok? && -1.0 <= CosineOf(a, na, b, nb).value <= 1.0
  {
    DotWithinNorms(a, na, b, nb);
    hide Dot, IsNorm, Times;
    if Times(na, nb) != 0.0 {
      QuotientBounds(Dot(a, b), Times(na, nb));
    }
  }

  // Both directions of the similarity are the same.
  lemma {:induction false} DotIsSymmetric(a: Vector, b: Vector)
    requires |a| == |b|
    ensures Dot(a, b) == Dot(b, a)
  {
    if a != [] {
      DotIsSymmetric(a[1..], b[1..]);
    }
  }

  lemma {:induction false} DotOfParallel(a: Vector, b: Vector, t: real)
    requires |a| == |b| && Parallel(a, b, t)
    ensures Dot(a, b) == Times(t, Dot(a, a)) && Dot(b, b) == Times(Times(t, t), Dot(a, a))
  {
    if a != [] {
      assert b[0] == a[0] * t;
      assert Parallel(a[1..], b[1..], t);
      hide Parallel;
      DotOfParallel(a[1..], b[1..], t);
      ScaleStep(a[0], t, Dot(a[1..], a[1..]));
    }
  }

  lemma ScaleStep(x: real, t: real, p: real)
    ensures Times(t, Times(x, x) + p) == Times(x, x * t) + Times(t, p)
    ensures Times(Times(t, t), Times(x, x) + p) == Times(x * t, x * t) + Times(Times(t, t), p)
  {
    assert t * (x * x + p) == x * (x * t) + t * p;
    assert (t * t) * (x * x + p) == (x * t) * (x * t) + (t * t) * p;
  }

  // The similarity is 1 exactly when one vector is a positive multiple of the other.
  lemma CosineIsOneIffParallel(a: Vector, na: real, b: Vector, nb: real)
    requires |a| == |b| && IsNorm(na, a) && IsNorm(nb, b) && na > 0.0 && nb > 0.0
    ensures CosineOf(a, na, b, nb) == Ok(1.0) <==> exists t :: t > 0.0 && Parallel(a, b, t)
  {
    hide Dot, Parallel;
    var n := Times(na, nb);
    PositiveProduct(na, nb);
    DotWithinNorms(a, na, b, nb);
    QuotientBounds(Dot(a, b), n);
    if Dot(a, b) == n {
      var t := OneIsParallel(a, na, b, nb);
    } else if t :| t > 0.0 && Parallel(a, b, t) {
      ParallelIsOne(a, na, b, nb, t);
    }
  }

  lemma PositiveQuotient(x: real, y: real)
    requires x > 0.0 && y > 0.0
    ensures x / y > 0.0
  {
  }

  lemma OneIsParallel(a: Vector, na: real, b: Vector, nb: real) returns (t: real)
    requires |a| == |b| && IsNorm(na, a) && IsNorm(nb, b) && na > 0.0 && nb > 0.0
    requires Dot(a, b) == Times(na, nb)
    ensures t > 0.0 && Parallel(a, b, t)
  {
    hide Dot, Parallel, Times;
    PositiveProduct(na, nb);
    PositiveProduct(na, na);
    ProductOfNorms(na, nb);
    t := Dot(a, b) / Dot(a, a);
    PositiveQuotient(Dot(a, b), Dot(a, a));
    CauchySchwarzEquality(a, b);
  }

  lemma ScaledNorm(na: real, nb: real, t: real)
    requires na > 0.0 && nb > 0.0 && t > 0.0
    requires Times(nb, nb) == Times(Times(t, t), Times(na, na))
    ensures Times(na, nb) == Times(t, Times(na, na))
  {
    var m := Times(t, na);
    assert Times(m, m) == Times(nb, nb) by { assert (t * na) * (t * na) == (t * t) * (na * na); }
    PositiveProduct(t, na);
    if m > nb {
      SquareOrder(m, nb);
    } else if nb > m {
      SquareOrder(nb, m);
    }
    assert na * (t * na) == t * (na * na);
  }

  lemma ParallelIsOne(a: Vector, na: real, b: Vector, nb: real, t: real)
    requires |a| == |b| && IsNorm(na, a) && IsNorm(nb, b) && na > 0.0 && nb > 0.0
    requires t > 0.0 && Parallel(a, b, t)
    ensures Dot(a, b) == Times(na, nb)
  {
    hide Dot, Parallel, Times;
    DotOfParallel(a, b, t);
    ScaledNorm(na, nb, t);
  }

  // ----- Negative similarities -----

  function Opposite(b: Vector): (r: Vector)
    ensures |r| == |b| && forall i | 0 <= i < |b| :: r[i] == -b[i]
  {
    seq(|b|, i requires 0 <= i < |b| => -b[i])
  }

  lemma OppositeFactor(x: real, y: real)
    ensures Times(x, -y) == -Times(x, y)
  {
    assert x * (-y) == -(x * y);
  }

  lemma {:induction false} DotOfOpposite(a: Vector, b: Vector)
    requires |a| == |b|
    ensures Dot(a, Opposite(b)) == -Dot(a, b)
  {
    if a != [] {
      assert Opposite(b)[1..] == Opposite(b[1..]);
      OppositeFactor(a[0], b[0]);
      hide Times;
      DotOfOpposite(a[1..], b[1..]);
    }
  }

  lemma OppositeNorm(b: Vector, nb: real)
    requires IsNorm(nb, b)
    ensures IsNorm(nb, Opposite(b))
  {
    hide Times;
    DotOfOpposite(b, b);
    DotIsSymmetric(b, Opposite(b));
    DotOfOpposite(Opposite(b), b);
  }

  lemma OppositeQuotient(d: real, n: real)
    requires n != 0.0
    ensures (-d) / n == -(d / n)
  {
    var q := d / n;
    assert q * n == d;
    assert (-q) * n == -d;
  }

  // Turning one vector around turns the similarity around.
  lemma CosineOfOpposite(a: Vector, na: real, b: Vector, nb: real)
    requires |a| == |b|
    ensures CosineOf(a, na, b, nb).Ok? && CosineOf(a, na, Opposite(b), nb).Ok?
    ensures CosineOf(a, na, Opposite(b), nb).value == -CosineOf(a, na, b, nb).value
  {
    DotOfOpposite(a, b);
    hide Dot, Times;
    if Times(na, nb) != 0.0 {
      OppositeQuotient(Dot(a, b), Times(na, nb));
    }
  }

  lemma ParallelToOpposite(a: Vector, b: Vector, t: real)
    requires |a| == |b|
    ensures Parallel(a, Opposite(b), t) <==> Parallel(a, b, -t)
  {
    forall i | 0 <= i < |a| ensures Opposite(b)[i] == a[i] * t <==> b[i] == a[i] * (-t) {
      assert a[i] * (-t) == -(a[i] * t);
    }
  }

  // The similarity is -1 exactly when one vector is a negative multiple of the other.
  lemma CosineIsMinusOneIffOpposite(a: Vector, na: real, b: Vector, nb: real)
    requires |a| == |b| && IsNorm(na, a) && IsNorm(nb, b) && na > 0.0 && nb > 0.0
    ensures CosineOf(a, na, b, nb) == Ok(-1.0) <==> exists t :: t < 0.0 && Parallel(a, b, t)
  {
    hide Dot, Parallel, Times, CosineOf, IsNorm;
    var c := Opposite(b);
    OppositeNorm(b, nb);
    CosineOfOpposite(a, na, b, nb);
    CosineIsOneIffParallel(a, na, c, nb);
    if t :| t > 0.0 && Parallel(a, c, t) {
      ParallelToOpposite(a, b, t);
      assert -t < 0.0;
    }
    if t :| t < 0.0 && Parallel(a, b, t) {
      ParallelToOpposite(a, b, -t);
      assert -t > 0.0 && -(-t) == t;
    }
  }

  // ----- The law of cosines -----

  // The sum of the squares of a[i] - b[i].
  function SquaredDistance(a: Vector, b: Vector): real
    requires |a| == |b|
  {
    if a == [] then 0.0 else (a[0] - b[0]) * (a[0] - b[0]) + SquaredDistance(a[1..], b[1..])
  }

  lemma {:induction false} SquaredDistanceExpands(a: Vector, b: Vector)
    requires |a| == |b|
    ensures SquaredDistance(a, b) == Dot(a, a) - 2.0 * Dot(a, b) + Dot(b, b)
  {
    if a != [] {
      var x, y := a[0], b[0];
      assert (x - y) * (x - y) == Times(x, x) - 2.0 * Times(x, y) + Times(y, y);
      hide Times;
      SquaredDistanceExpands(a[1..], b[1..]);
    }
  }

  lemma QuotientTimes(d: real, n: real)
    requires n != 0.0
    ensures Times(n, d / n) == d
  {
  }

  // The similarity is the one number for which the law of cosines holds.
  lemma LawOfCosines(a: Vector, na: real, b: Vector, nb: real)
    requires |a| == |b| && IsNorm(na, a) && IsNorm(nb, b)
    ensures CosineOf(a, na, b, nb).Ok?
    ensures SquaredDistance(a, b)
         == Times(na, na) + Times(nb, nb) - 2.0 * Times(Times(na, nb), CosineOf(a, na, b, nb).value)
  {
    SquaredDistanceExpands(a, b);
    DotWithinNorms(a, na, b, nb);
    hide Dot, SquaredDistance;
    var n := Times(na, nb);
    if n != 0.0 {
      QuotientTimes(Dot(a, b), n);
    } else {
      assert Times(n, 0.0) == 0.0;
    }
    hide Times;
  }

  // ----- Mean answer relevancy -----

  function Sum(s: seq<real>): real {
    if s == [] then 0.0 else Sum(s[..|s| - 1]) + s[|s| - 1]
  }

  // The similarities to the question, as many as were computed.
  function Similarities(question: Vector, norm: real, generated: seq<(Vector, real)>): Result<seq<real>, Failure> {
    if generated == [] then Ok([])
    else
      var last := generated[|generated| - 1];
      var init := Similarities(question, norm, generated[..|generated| - 1]);
      var similarity := CosineOf(question, norm, last.0, last.1);
      if init.Err? then init
      else if similarity.Err? then Err(similarity.error)
      else Ok(init.value + [similarity.value])
  }

  // None when there are no generated questions.
  function AnswerRelevancy(question: Vector, norm: real, generated: seq<(Vector, real)>)
    : Result<Option<real>, Failure>
  {
    if generated == [] then Ok(None)
    else
      var similarities := Similarities(question, norm, generated);
      if similarities.Err? then Err(similarities.error)
      else Ok(Some(Sum(similarities.value) / |generated| as real))
  }

  ghost predicate Embedded(question: Vector, norm: real, generated: seq<(Vector, real)>) {
    IsNorm(norm, question) && forall g | g in generated :: |g.0| == |question| && IsNorm(g.1, g.0)
  }

  lemma {:induction false} SimilaritiesBounds(question: Vector, norm: real, generated: seq<(Vector, real)>)
    requires Embedded(question, norm, generated)
    ensures var s := Similarities(question, norm, generated);
      && s.Ok? && |s.value| == |generated|
      && -(|generated| as real) <= Sum(s.value) <= |generated| as real
  {
    if generated != [] {
      var n := |generated| - 1;
      var last := generated[n];
      assert last in generated;
      assert Embedded(question, norm, generated[..n]);
      assert |last.0| == |question| && IsNorm(norm, question) && IsNorm(last.1, last.0);
      hide Embedded, IsNorm, CosineOf;
      SimilaritiesBounds(question, norm, generated[..n]);
      CosineBounds(question, norm, last.0, last.1);
      var init := Similarities(question, norm, generated[..n]).value;
      var similarity := CosineOf(question, norm, last.0, last.1).value;
      assert (init + [similarity])[..|init|] == init;
    }
  }

  // So the mean is between -1 and 1 too.
  lemma AnswerRelevancyBounds(question: Vector, norm: real, generated: seq<(Vector, real)>)
    requires Embedded(question, norm, generated)
    ensures var r := AnswerRelevancy(question, norm, generated);
      && r.Ok? && (r.value == None <==> generated == [])
      && (r.value.Some? ==> -1.0 <= r.value.value <= 1.0)
  {
    hide Embedded, Similarities, Sum;
    SimilaritiesBounds(question, norm, generated);
    if generated != [] {
      QuotientBounds(Sum(Similarities(question, norm, generated).value), |generated| as real);
    }
  }

  lemma MeanTimesCount(question: Vector, norm: real, generated: seq<(Vector, real)>)
    requires generated != [] && Similarities(question, norm, generated).Ok?
    ensures var r := AnswerRelevancy(question, norm, generated);
      && r.Ok? && r.value.Some?
      && Times(|generated| as real, r.value.value) == Sum(Similarities(question, norm, generated).value)
  {
    hide Similarities, Sum, Times;
    QuotientTimes(Sum(Similarities(question, norm, generated).value), |generated| as real);
  }

  lemma SumOfOneMore(s: seq<real>, x: real)
    ensures Sum(s + [x]) == Sum(s) + x
  {
    assert (s + [x])[..|s|] == s;
  }

  lemma TimesOne(x: real)
    ensures Times(1.0, x) == x
  {
  }

  // Every further question counts as much as each before it.
  lemma RelevancyOfOneMore(question: Vector, norm: real, generated: seq<(Vector, real)>, last: (Vector, real))
    requires Embedded(question, norm, generated + [last])
    ensures var n := |generated| as real;
      var before := AnswerRelevancy(question, norm, generated);
      var after := AnswerRelevancy(question, norm, generated + [last]);
      var similarity := CosineOf(question, norm, last.0, last.1);
      && similarity.Ok? && before.Ok? && after.Ok? && after.value.Some?
      && (generated == [] ==> after.value.value == similarity.value)
      && (generated != [] ==> before.value.Some?)
      && (generated != [] ==>
            Times(n + 1.0, after.value.value) == Times(n, before.value.value) + similarity.value)
  {
    hide Embedded, CosineOf, Similarities, AnswerRelevancy, Times, Sum, IsNorm;
    EmbeddedLess(question, norm, generated, last);
    CosineBounds(question, norm, last.0, last.1);
    SimilaritiesBounds(question, norm, generated);
    var s, similarity := Similarities(question, norm, generated).value, CosineOf(question, norm, last.0, last.1).value;
    SimilaritiesOfOneMore(question, norm, generated, last);
    SumOfOneMore(s, similarity);
    MeanTimesCount(question, norm, generated + [last]);
    if generated == [] {
      NoRelevancy(question, norm);
      NoSum();
      TimesOne(AnswerRelevancy(question, norm, generated + [last]).value.value);
    } else {
      MeanTimesCount(question, norm, generated);
    }
  }

  lemma EmbeddedLess(question: Vector, norm: real, generated: seq<(Vector, real)>, last: (Vector, real))
    requires Embedded(question, norm, generated + [last])
    ensures Embedded(question, norm, generated)
    ensures |last.0| == |question| && IsNorm(norm, question) && IsNorm(last.1, last.0)
  {
    hide IsNorm;
    var all := generated + [last];
    assert last in all && forall g | g in generated :: g in all;
  }

  lemma SimilaritiesOfOneMore(question: Vector, norm: real, generated: seq<(Vector, real)>, last: (Vector, real))
    requires Similarities(question, norm, generated).Ok? && CosineOf(question, norm, last.0, last.1).Ok?
    ensures Similarities(question, norm, generated + [last])
         == Ok(Similarities(question, norm, generated).value + [CosineOf(question, norm, last.0, last.1).value])
  {
    hide CosineOf;
    assert (generated + [last])[..|generated|] == generated;
  }

  lemma NoRelevancy(question: Vector, norm: real)
    ensures AnswerRelevancy(question, norm, []) == Ok(None)
  {
  }

  lemma NoSum()
    ensures Sum([]) == 0.0
  {
  }
}
