// The verdict-based metrics of app/evaluation/metrics.py: average precision of
// a ranking, and the ratios behind faithfulness and context recall. Scores are
// exact reals; what the judge model answers is an input.

module AveragePrecision {
  import opened Multiples
  import opened Options

  // ----- Verdicts -----

  function Falses(n: nat): (r: seq<bool>)
    ensures |r| == n && forall i | 0 <= i < n :: !r[i]
  {
    seq(n, _ => false)
  }

  // One verdict per item; what the judge did not answer counts as false.
  function Bools(parsed: Option<seq<bool>>, expected: nat): (r: Option<seq<bool>>)
    ensures r.Some? <==> parsed.Some?
    ensures r.Some? ==> |r.value| == expected
    ensures r.Some? ==> forall i | 0 <= i < expected :: r.value[i] <==> i < |parsed.value| && parsed.value[i]
  {
    match parsed
    case None => None
    case Some(v) =>
      var kept := if |v| <= expected then v else v[..expected];
      Some(kept + Falses(expected - |kept|))
  }

  function Count(v: seq<bool>): (n: nat)
    ensures n <= |v|
  {
    if v == [] then 0 else Count(v[..|v| - 1]) + if v[|v| - 1] then 1 else 0
  }

  // ----- Average precision -----

  function Per(x: real, n: nat): real
    requires n > 0
  {
    x / n as real
  }

  // The precisions at the relevant positions, added up.
  function Gain(v: seq<bool>): real {
    if v == [] then 0.0
    else Gain(v[..|v| - 1]) + if v[|v| - 1] then Per(Count(v) as real, |v|) else 0.0
  }

  function Precision(v: seq<bool>): real {
    if Count(v) == 0 then 0.0 else Per(Gain(v), Count(v))
  }

  method ContextPrecision(contexts: nat, judged: Option<seq<bool>>) returns (score: Option<real>)
    ensures contexts == 0 || judged == None ==> score == None
    ensures contexts > 0 && judged.Some? ==> score == Some(Precision(Bools(judged, contexts).value))
  {
    if contexts == 0 {
      return None;
    }
    var bools := Bools(judged, contexts);
    if bools == None {
      return None;
    }
    var verdicts := bools.value;
    var relevantTotal := Count(verdicts);
    if relevantTotal == 0 {
      return Some(0.0);
    }
    var averagePrecision := 0.0;
    var seenRelevant := 0;
    var position := 0;
    while position < |verdicts|
      invariant 0 <= position <= |verdicts|
      invariant seenRelevant == Count(verdicts[..position])
      invariant averagePrecision == Gain(verdicts[..position])
    {
      position := position + 1;
      assert verdicts[..position][..position - 1] == verdicts[..position - 1];
      if verdicts[position - 1] {
        seenRelevant := seenRelevant + 1;
        averagePrecision := averagePrecision + seenRelevant as real / position as real;
      }
    }
    assert verdicts[..position] == verdicts;
    return Some(averagePrecision / relevantTotal as real);
  }

  // ----- Bounds -----

  lemma RatioAtMostOne(a: nat, b: nat)
    requires a <= b && b > 0
    ensures 0.0 <= Per(a as real, b) <= 1.0
    ensures Per(a as real, b) == 1.0 <==> a == b
  {
    Quotient(a as real, b);
  }

  // No irrelevant item comes before a relevant one.
  ghost predicate RelevantFirst(v: seq<bool>) {
    forall i, j | 0 <= i < j < |v| && v[j] :: v[i]
  }

  lemma {:induction false} AllRelevant(v: seq<bool>)
    ensures Count(v) == |v| <==> forall i | 0 <= i < |v| :: v[i]
  {
    if v != [] {
      var init := v[..|v| - 1];
      AllRelevant(init);
      assert v == init + [v[|v| - 1]];
    }
  }

  lemma {:induction false} GainBounds(v: seq<bool>)
    ensures 0.0 <= Gain(v) <= Count(v) as real
    ensures Gain(v) == Count(v) as real <==> RelevantFirst(v)
  {
    hide Per;
    if v != [] {
      var n := |v| - 1;
      var init := v[..n];
      GainBounds(init);
      if v[n] {
        RatioAtMostOne(Count(v), |v|);
        AllRelevant(v);
        RelevantLast(v);
      } else {
        assert RelevantFirst(v) <==> RelevantFirst(init);
      }
    }
  }

  lemma RelevantLast(v: seq<bool>)
    requires v != [] && v[|v| - 1]
    ensures RelevantFirst(v) <==> forall i | 0 <= i < |v| :: v[i]
  {
    if RelevantFirst(v) {
      forall i | 0 <= i < |v| ensures v[i] {
        assert i < |v| - 1 ==> v[i];
      }
    }
  }

  lemma Quotient(x: real, n: nat)
    requires n > 0 && 0.0 <= x <= n as real
    ensures 0.0 <= Per(x, n) <= 1.0
    ensures Per(x, n) == 1.0 <==> x == n as real
  {
    Divide(x, n as real);
  }

  lemma Divide(x: real, y: real)
    requires y > 0.0 && 0.0 <= x <= y
    ensures 0.0 <= x / y <= 1.0 && (x / y == 1.0 <==> x == y)
  {
    QuotientOf(x, y, x / y);
  }

  lemma QuotientOf(x: real, y: real, q: real)
    requires y > 0.0 && 0.0 <= x <= y && q * y == x
    ensures 0.0 <= q <= 1.0 && (q == 1.0 <==> x == y)
  {
    assert (q - 1.0) * y == x - y;
    assert q > 1.0 ==> (q - 1.0) * y > 0.0;
    assert q < 0.0 ==> q * y < 0.0;
  }

  // Average precision lies between 0 and 1, and is 1 for a perfect ranking only.
  lemma PrecisionBounds(v: seq<bool>)
    ensures 0.0 <= Precision(v) <= 1.0
    ensures Precision(v) == 1.0 <==> Count(v) > 0 && RelevantFirst(v)
  {
    hide Per, Gain, Count, RelevantFirst;
    GainBounds(v);
    if Count(v) > 0 {
      Quotient(Gain(v), Count(v));
    }
  }

  // ----- Moving a relevant item ahead -----

  lemma {:induction false} CountOfConcat(a: seq<bool>, b: seq<bool>)
    ensures Count(a + b) == Count(a) + Count(b)
    decreases |b|
  {
    if b == [] {
      assert a + b == a;
    } else {
      var init := b[..|b| - 1];
      CountOfConcat(a, init);
      assert (a + b)[..|a + b| - 1] == a + init;
    }
  }

  // What follows two rankings with equally many items and relevant items adds the same to both.
  lemma {:induction false} TailAddsTheSame(a: seq<bool>, b: seq<bool>, tail: seq<bool>)
    requires |a| == |b| && Count(a) == Count(b)
    ensures Gain(a + tail) - Gain(b + tail) == Gain(a) - Gain(b)
    decreases |tail|
  {
    hide Per;
    if tail == [] {
      assert a + tail == a && b + tail == b;
    } else {
      var init := tail[..|tail| - 1];
      TailAddsTheSame(a, b, init);
      CountOfConcat(a, tail);
      CountOfConcat(b, tail);
      assert (a + tail)[..|a + tail| - 1] == a + init && (b + tail)[..|b + tail| - 1] == b + init;
    }
  }

  lemma GainOfOne(p: seq<bool>, x: bool)
    ensures Count(p + [x]) == Count(p) + if x then 1 else 0
    ensures Gain(p + [x]) == Gain(p) + if x then Per((Count(p) + 1) as real, |p| + 1) else 0.0
  {
    hide Per;
    assert (p + [x])[..|p|] == p;
  }

  lemma RelevantThenNot(p: seq<bool>)
    ensures Count(p + [true] + [false]) == Count(p) + 1
    ensures Gain(p + [true] + [false]) == Gain(p) + Per((Count(p) + 1) as real, |p| + 1)
  {
    GainOfOne(p, true);
    var q := p + [true];
    hide Gain, Count, Per;
    GainOfOne(q, false);
  }

  lemma NotThenRelevant(p: seq<bool>)
    ensures Count(p + [false] + [true]) == Count(p) + 1
    ensures Gain(p + [false] + [true]) == Gain(p) + Per((Count(p) + 1) as real, |p| + 2)
  {
    GainOfOne(p, false);
    var q := p + [false];
    hide Gain, Count, Per;
    GainOfOne(q, true);
    assert |q| + 1 == |p| + 2;
  }

  lemma SmallerDivisor(c: nat, n: nat)
    requires c > 0 && n > 0
    ensures Per(c as real, n) > Per(c as real, n + 1)
  {
  }

  lemma AdjacentSwapRaises(v: seq<bool>, k: nat)
    requires k + 1 < |v| && !v[k] && v[k + 1]
    ensures Gain(v[k := true][k + 1 := false]) > Gain(v)
    ensures Count(v[k := true][k + 1 := false]) == Count(v)
  {
    hide Per, Gain, Count;
    var p, tail := v[..k], v[k + 2..];
    var a, b := p + [true] + [false], p + [false] + [true];
    RelevantThenNot(p);
    NotThenRelevant(p);
    SmallerDivisor(Count(p) + 1, k + 1);
    TailAddsTheSame(a, b, tail);
    CountOfConcat(a, tail);
    CountOfConcat(b, tail);
    assert v == b + tail;
    assert v[k := true][k + 1 := false] == a + tail;
  }

  // Moving a relevant item ahead of an irrelevant one strictly raises the score.
  lemma {:induction false} GainOfSwap(v: seq<bool>, i: nat, j: nat)
    requires i < j < |v| && !v[i] && v[j]
    ensures Gain(v[i := true][j := false]) > Gain(v)
    ensures Count(v[i := true][j := false]) == Count(v)
    decreases j - i
  {
    hide Gain, Count;
    if j == i + 1 {
      AdjacentSwapRaises(v, i);
    } else if v[j - 1] {
      var closer := v[i := true][j - 1 := false];
      GainOfSwap(v, i, j - 1);
      AdjacentSwapRaises(closer, j - 1);
      assert closer[j - 1 := true][j := false] == v[i := true][j := false];
    } else {
      var closer := v[j - 1 := true][j := false];
      AdjacentSwapRaises(v, j - 1);
      GainOfSwap(closer, i, j - 1);
      assert closer[i := true][j - 1 := false] == v[i := true][j := false];
    }
  }

  lemma GreaterQuotient(x: real, y: real, n: nat)
    requires x > y && n > 0
    ensures Per(x, n) > Per(y, n)
  {
  }

  lemma {:induction false} SomeRelevant(v: seq<bool>, j: nat)
    requires j < |v| && v[j]
    ensures Count(v) > 0
  {
    if j < |v| - 1 {
      SomeRelevant(v[..|v| - 1], j);
    }
  }

  lemma MovingAheadRaises(v: seq<bool>, i: nat, j: nat)
    requires i < j < |v| && !v[i] && v[j]
    ensures Precision(v[i := true][j := false]) > Precision(v)
  {
    hide Per, Gain, Count;
    GainOfSwap(v, i, j);
    SomeRelevant(v, j);
    GreaterQuotient(Gain(v[i := true][j := false]), Gain(v), Count(v));
  }

  // ----- The worst ranking -----

  // All irrelevant items first.
  function RelevantLastOf(irrelevant: nat, relevant: nat): seq<bool> {
    Falses(irrelevant) + seq(relevant, _ => true)
  }

  lemma {:induction false} GainOfFalses(n: nat)
    ensures Gain(Falses(n)) == 0.0 && Count(Falses(n)) == 0
  {
    hide Per;
    if n > 0 {
      GainOfFalses(n - 1);
      assert Falses(n)[..n - 1] == Falses(n - 1);
    }
  }

  // The worst ranking, item by item from the end.
  lemma {:induction false} WorstStep(irrelevant: nat, relevant: nat)
    ensures |RelevantLastOf(irrelevant, relevant)| == irrelevant + relevant
    ensures Count(RelevantLastOf(irrelevant, relevant)) == relevant
    ensures relevant == 0 ==> Gain(RelevantLastOf(irrelevant, relevant)) == 0.0
    ensures relevant > 0 ==>
      && RelevantLastOf(irrelevant, relevant) == RelevantLastOf(irrelevant, relevant - 1) + [true]
      && Gain(RelevantLastOf(irrelevant, relevant))
         == Gain(RelevantLastOf(irrelevant, relevant - 1)) + Per(relevant as real, irrelevant + relevant)
    decreases relevant
  {
    hide Per;
    var v := RelevantLastOf(irrelevant, relevant);
    if relevant == 0 {
      assert v == Falses(irrelevant);
      GainOfFalses(irrelevant);
    } else {
      WorstStep(irrelevant, relevant - 1);
      var init := RelevantLastOf(irrelevant, relevant - 1);
      assert v == init + [true];
      GainOfOne(init, true);
    }
  }

  // Another irrelevant item in front of all relevant ones costs something.
  lemma {:induction false} MoreIrrelevantIsWorse(irrelevant: nat, relevant: nat)
    ensures relevant == 0 || Gain(RelevantLastOf(irrelevant, relevant)) > Gain(RelevantLastOf(irrelevant + 1, relevant))
    ensures relevant == 0 ==>
      Gain(RelevantLastOf(irrelevant, relevant)) == Gain(RelevantLastOf(irrelevant + 1, relevant))
    decreases relevant
  {
    hide Per, Gain, Count, RelevantLastOf;
    WorstStep(irrelevant, relevant);
    WorstStep(irrelevant + 1, relevant);
    if relevant > 0 {
      MoreIrrelevantIsWorse(irrelevant, relevant - 1);
      SmallerDivisor(relevant, irrelevant + relevant);
    }
  }

  lemma {:induction false} GainIsLeastForWorst(v: seq<bool>)
    ensures var worst := RelevantLastOf(|v| - Count(v), Count(v));
      Gain(v) >= Gain(worst) && (Gain(v) == Gain(worst) <==> v == worst)
    decreases |v|
  {
    hide Per;
    var irrelevant, relevant := |v| - Count(v), Count(v);
    WorstStep(irrelevant, relevant);
    if v == [] {
      hide Gain;
    } else {
      var init, last := v[..|v| - 1], v[|v| - 1];
      assert v == init + [last];
      GainOfOne(init, last);
      hide Gain, Count;
      GainIsLeastForWorst(init);
      WorstLast(init, last);
    }
  }

  lemma WorstLast(init: seq<bool>, last: bool)
    requires var worst := RelevantLastOf(|init| - Count(init), Count(init));
      Gain(init) >= Gain(worst) && (Gain(init) == Gain(worst) <==> init == worst)
    ensures var v := init + [last];
      var worst := RelevantLastOf(|v| - Count(v), Count(v));
      Gain(v) >= Gain(worst) && (Gain(v) == Gain(worst) <==> v == worst)
  {
    hide Per, Gain, Count, RelevantLastOf;
    GainOfOne(init, last);
    var irrelevant, relevant := |init| - Count(init), Count(init);
    if last {
      WorstStep(irrelevant, relevant + 1);
      var worst := RelevantLastOf(irrelevant, relevant);
      assert init + [true] == worst + [true] <==> init == worst by {
        assert (init + [true])[..|init|] == init && (worst + [true])[..|worst|] == worst;
      }
    } else {
      MoreIrrelevantIsWorse(irrelevant, relevant);
      WorstWithIrrelevantLast(init, irrelevant, relevant);
    }
  }

  lemma WorstWithIrrelevantLast(init: seq<bool>, irrelevant: nat, relevant: nat)
    requires |init| == irrelevant + relevant && Count(init) == relevant
    ensures init + [false] == RelevantLastOf(irrelevant + 1, relevant) <==> relevant == 0
    ensures relevant == 0 ==> init == RelevantLastOf(irrelevant, 0)
  {
    var v := init + [false];
    var worst := RelevantLastOf(irrelevant + 1, relevant);
    if relevant > 0 {
      assert !v[|v| - 1] && worst[|worst| - 1];
    } else {
      forall i | 0 <= i < |init| ensures !init[i] {
        if init[i] {
          SomeRelevant(init, i);
        }
      }
    }
  }

  // For a given number of relevant items the score is least when they all come last.
  lemma WorstRanking(v: seq<bool>)
    requires Count(v) > 0
    ensures var worst := RelevantLastOf(|v| - Count(v), Count(v));
      Precision(v) >= Precision(worst) && (Precision(v) == Precision(worst) <==> v == worst)
  {
    hide Per, Gain, RelevantLastOf;
    GainIsLeastForWorst(v);
    var worst := RelevantLastOf(|v| - Count(v), Count(v));
    WorstStep(|v| - Count(v), Count(v));
    if Gain(v) > Gain(worst) {
      GreaterQuotient(Gain(v), Gain(worst), Count(v));
    }
  }

  // ----- A judge that answers too little -----

  // The share of true verdicts (faithfulness and context recall).
  function Ratio(v: seq<bool>): real
    requires v != []
  {
    Per(Count(v) as real, |v|)
  }

  lemma {:induction false} CountIsAll(v: seq<bool>)
    ensures Count(v) == |v| <==> forall i | 0 <= i < |v| :: v[i]
  {
    if v != [] {
      CountIsAll(v[..|v| - 1]);
    }
  }

  lemma RatioTimes(v: seq<bool>)
    requires v != []
    ensures Ratio(v) * (|v| as real) == Count(v) as real
    ensures Ratio(v) == 1.0 <==> Count(v) == |v|
  {
    hide Count, Per;
    PerTimes(Count(v) as real, |v|);
    RatioAtMostOne(Count(v), |v|);
  }

  lemma CountOfOne(x: bool)
    ensures Count([x]) == if x then 1 else 0
  {
    assert [x][..0] == [];
  }

  // One more verdict is one more claim, and counts exactly when it is true; the
  // share is 1 exactly when all verdicts are true.
  lemma RatioOfOneMore(v: seq<bool>, last: bool)
    requires v != []
    ensures Ratio(v + [last]) * ((|v| + 1) as real) == Ratio(v) * (|v| as real) + if last then 1.0 else 0.0
    ensures Ratio([last]) == if last then 1.0 else 0.0
    ensures Ratio(v) == 1.0 <==> forall i | 0 <= i < |v| :: v[i]
  {
    hide Count, Ratio;
    CountIsAll(v);
    CountOfConcat(v, [last]);
    CountOfOne(last);
    RatioTimes(v);
    RatioTimes(v + [last]);
    RatioTimes([last]);
    assert Ratio([last]) * 1.0 == Ratio([last]);
  }

  lemma PerTimes(x: real, n: nat)
    requires n > 0
    ensures Per(x, n) * (n as real) == x
  {
  }

  // What remains of the verdicts when only k of them are given.
  function UnderAnswered(v: seq<bool>, k: nat): seq<bool>
    requires k <= |v|
  {
    Bools(Some(v[..k]), |v|).value
  }

  lemma UnderAnsweredIs(v: seq<bool>, k: nat)
    requires k <= |v|
    ensures UnderAnswered(v, k) == v[..k] + Falses(|v| - k)
  {
  }

  lemma {:induction false} FalsesAddNothing(p: seq<bool>, n: nat)
    ensures Count(p + Falses(n)) == Count(p) && Gain(p + Falses(n)) == Gain(p)
  {
    hide Per;
    if n == 0 {
      assert p + Falses(n) == p;
    } else {
      FalsesAddNothing(p, n - 1);
      assert p + Falses(n) == p + Falses(n - 1) + [false];
      GainOfOne(p + Falses(n - 1), false);
    }
  }

  // A ratio never rises when verdicts are missing, and it stays only if none of
  // the missing ones was true.
  lemma MissingVerdictsNeverRaiseRatio(v: seq<bool>, k: nat)
    requires v != [] && k <= |v|
    ensures 0.0 <= Ratio(UnderAnswered(v, k)) <= Ratio(v) <= 1.0
    ensures Ratio(UnderAnswered(v, k)) == Ratio(v) <==> Count(v[k..]) == 0
  {
    UnderAnsweredIs(v, k);
    FalsesAddNothing(v[..k], |v| - k);
    CountOfConcat(v[..k], v[k..]);
    assert v == v[..k] + v[k..];
    hide Per, Count, UnderAnswered;
    RatioOrder(Count(v[..k]), Count(v), |v|);
  }

  lemma RatioOrder(a: nat, b: nat, n: nat)
    requires a <= b <= n && n > 0
    ensures 0.0 <= Per(a as real, n) <= Per(b as real, n) <= 1.0
    ensures Per(a as real, n) == Per(b as real, n) <==> a == b
  {
    hide Per;
    if a < b {
      GreaterQuotient(b as real, a as real, n);
    }
    RatioAtMostOne(a, n);
    RatioAtMostOne(b, n);
  }

  // Average precision is different: missing verdicts can raise it.
  lemma MissingVerdictsCanRaisePrecision()
    ensures var v := [true, false, true];
      Precision(v) < 1.0 && Precision(UnderAnswered(v, 1)) == 1.0
  {
    var v := [true, false, true];
    PrecisionBounds(v);
    assert !RelevantFirst(v) by { assert v[2] && !v[1]; }
    UnderAnsweredIs(v, 1);
    var u := UnderAnswered(v, 1);
    PrecisionBounds(u);
    SomeRelevant(u, 0);
  }

  lemma PrecisionWhenUnderAnswered(v: seq<bool>, k: nat)
    requires k <= |v| && Count(v[..k]) > 0
    ensures Precision(UnderAnswered(v, k)) == Per(Gain(v[..k]), Count(v[..k]))
    ensures Precision(v) == Per(Gain(v), Count(v[..k]) + Count(v[k..]))
  {
    hide *;
    UnderAnsweredIs(v, k);
    FalsesAddNothing(v[..k], |v| - k);
    PrecisionIs(UnderAnswered(v, k));
    CountOfConcat(v[..k], v[k..]);
    assert v == v[..k] + v[k..];
    PrecisionIs(v);
  }

  lemma PrecisionIs(v: seq<bool>)
    requires Count(v) > 0
    ensures Precision(v) == Per(Gain(v), Count(v))
  {
    hide Per, Gain, Count;
  }

  lemma NothingRelevant(v: seq<bool>)
    requires Count(v) == 0
    ensures v == Falses(|v|)
  {
    forall i | 0 <= i < |v| ensures !v[i] {
      if v[i] {
        SomeRelevant(v, i);
      }
    }
  }

  lemma NothingMissing(v: seq<bool>, k: nat)
    requires k <= |v| && Count(v[k..]) == 0
    ensures UnderAnswered(v, k) == v
  {
    NothingRelevant(v[k..]);
    UnderAnsweredIs(v, k);
    assert v == v[..k] + v[k..];
  }

  // One more verdict list raises it exactly when the relevant items without a
  // verdict have a lower precision, on average, than those with one.
  lemma RaisedIffMissingAreLower(v: seq<bool>, k: nat)
    requires k <= |v| && Count(v[..k]) > 0
    ensures Precision(UnderAnswered(v, k)) > Precision(v)
       <==> Count(v[k..]) > 0 && Per(Gain(v) - Gain(v[..k]), Count(v[k..])) < Precision(UnderAnswered(v, k))
  {
    hide *;
    PrecisionWhenUnderAnswered(v, k);
    if Count(v[k..]) == 0 {
      NothingMissing(v, k);
    } else {
      MeanOfBoth(Gain(v[..k]), Count(v[..k]), Gain(v), Count(v[k..]));
    }
  }

  lemma {:induction false} LongerDivisor(c: nat, m: nat, n: nat)
    requires 0 < m <= n && c > 0
    ensures Per(c as real, n) <= Per(c as real, m)
    decreases n
  {
    hide Per;
    if m < n {
      LongerDivisor(c, m, n - 1);
      SmallerDivisor(c, n - 1);
    }
  }

  lemma LargerDividend(x: real, y: real, n: nat)
    requires n > 0 && x <= y
    ensures Per(x, n) <= Per(y, n)
  {
    if x < y {
      GreaterQuotient(y, x, n);
    }
  }

  lemma MeanOfTimes(n: nat, x: real, total: real)
    requires n > 0 && total >= Times(n, x)
    ensures Per(total, n) >= x
  {
    hide Times, Per;
    LargerDividend(Times(n, x), total, n);
    PerOfTimes(n, x);
  }

  lemma PerOfTimes(n: nat, x: real)
    requires n > 0
    ensures Per(Times(n, x), n) == x
  {
    TimesIsProduct(n, x);
    hide Times;
    Cancelled(n as real, x);
  }

  lemma Cancelled(d: real, x: real)
    requires d > 0.0
    ensures (d * x) / d == x
  {
  }

  // Each further relevant item gains at least what the next one would gain in
  // the last place.
  lemma {:induction false} FurtherGain(p: seq<bool>, t: seq<bool>, n: nat)
    requires |p| + |t| <= n && n > 0
    ensures Gain(p + t) - Gain(p) >= Times(Count(t), Per((Count(p) + 1) as real, n))
    decreases |t|
  {
    hide Per, Gain, Times;
    var x := Per((Count(p) + 1) as real, n);
    TimesStep(x);
    if t == [] {
      assert p + t == p;
    } else {
      var init, last := t[..|t| - 1], t[|t| - 1];
      assert t == init + [last] && p + t == p + init + [last];
      hide Count;
      FurtherGain(p, init, n);
      GainOfOne(init, last);
      GainOfOne(p + init, last);
      if last {
        CountOfConcat(p, init);
        PlaceGain(Count(p) + 1, Count(p + init) + 1, |p + init| + 1, n);
      }
    }
  }

  lemma TimesStep(x: real)
    ensures Times(0, x) == 0.0
    ensures forall k: nat :: Times(k + 1, x) == Times(k, x) + x
  {
  }

  lemma PlaceGain(c: nat, d: nat, place: nat, n: nat)
    requires 0 < c <= d && 0 < place <= n
    ensures Per(c as real, n) <= Per(d as real, place)
  {
    hide Per;
    LargerDividend(c as real, d as real, n);
    LongerDivisor(d, place, n);
  }

  // n verdicts of which the judge gave those in p.
  ghost predicate Completes(v: seq<bool>, p: seq<bool>, n: nat) {
    |v| == n && forall i | 0 <= i < n && i < |p| :: v[i] == p[i]
  }

  ghost predicate Raised(v: seq<bool>, p: seq<bool>, n: nat) {
    Completes(v, p, n) && Precision(Bools(Some(p), n).value) > Precision(v)
  }

  // The missing verdicts, all but the last false, that make the score fall most.
  function LateHit(p: seq<bool>, n: nat): seq<bool>
    requires |p| < n
  {
    p + Falses(n - |p| - 1) + [true]
  }

  lemma LateHitIsRaised(p: seq<bool>, n: nat)
    requires |p| < n && Count(p) > 0 && Per((Count(p) + 1) as real, n) < Precision(p)
    ensures Raised(LateHit(p, n), p, n)
  {
    hide Per, Gain, Count, Precision;
    var v := LateHit(p, n);
    var almost := p + Falses(n - |p| - 1);
    var rest := Falses(n - |p| - 1) + [true];
    assert v == almost + [true] && v == p + rest && v[..|p|] == p && v[|p|..] == rest;
    FalsesAddNothing(p, n - |p| - 1);
    GainOfOne(almost, true);
    CountOfConcat(p, rest);
    PrecisionIs(p);
    PrecisionOfAnswered(v, p);
    RaisedIffMissingAreLower(v, |p|);
    PerOne(Gain(v) - Gain(p));
  }

  lemma PerOne(x: real)
    ensures Per(x, 1) == x
  {
  }

  lemma PrecisionOfAnswered(v: seq<bool>, p: seq<bool>)
    requires |p| <= |v| && v[..|p|] == p && Count(p) > 0
    ensures UnderAnswered(v, |p|) == Bools(Some(p), |v|).value && Precision(Bools(Some(p), |v|).value) == Precision(p)
  {
    hide Per, Gain, Count;
    PrecisionWhenUnderAnswered(v, |p|);
    PrecisionIs(p);
  }

  lemma RaisedMeans(v: seq<bool>, p: seq<bool>, n: nat)
    requires Raised(v, p, n)
    ensures |p| < n && Count(p) > 0 && Per((Count(p) + 1) as real, n) < Precision(p)
  {
    hide Per, Gain, Count, Precision;
    var given := Bools(Some(p), n).value;
    assert given == v ==> Precision(given) == Precision(v);
    assert |p| >= n ==> given == v;
    assert v[..|p|] == p;
    assert v == p + v[|p|..];
    if Count(p) == 0 {
      PrecisionOfNothing(p, n);
      PrecisionBounds(v);
    } else {
      PrecisionOfAnswered(v, p);
      RaisedIffMissingAreLower(v, |p|);
      FurtherGain(p, v[|p|..], n);
      MeanOfTimes(Count(v[|p|..]), Per((Count(p) + 1) as real, n), Gain(v) - Gain(p));
    }
  }

  lemma PrecisionOfNothing(p: seq<bool>, n: nat)
    requires Count(p) == 0 && |p| <= n
    ensures Precision(Bools(Some(p), n).value) == 0.0
  {
    FalsesAddNothing(p, n - |p|);
    assert Bools(Some(p), n).value == p + Falses(n - |p|);
  }

  // From what the judge answered one can tell whether the score may be too
  // high: some verdicts for the other contexts would give a lower one exactly
  // when something was found relevant and one more relevant context, in the
  // last place, would have a precision below the present score.
  lemma MissingVerdictsRaisePrecisionIff(p: seq<bool>, n: nat)
    ensures (exists v :: Raised(v, p, n))
       <==> |p| < n && Count(p) > 0 && Per((Count(p) + 1) as real, n) < Precision(p)
  {
    hide *;
    if v :| Raised(v, p, n) {
      RaisedMeans(v, p, n);
    }
    if |p| < n && Count(p) > 0 && Per((Count(p) + 1) as real, n) < Precision(p) {
      LateHitIsRaised(p, n);
    }
  }

  // A mean exceeds the mean with further terms exactly when it exceeds the mean of these.
  lemma MeanOfBoth(g: real, m: nat, total: real, n: nat)
    requires m > 0 && n > 0
    ensures Per(g, m) > Per(total, m + n) <==> Per(total - g, n) < Per(g, m)
  {
    var q, r, p := Per(g, m), Per(total, m + n), Per(total - g, n);
    assert g == q * m as real;
    assert total == r * (m + n) as real;
    assert total - g == p * n as real;
    assert (p - q) * n as real == (r - q) * (m + n) as real;
    SameSign(p - q, n, r - q, m + n);
  }

  lemma SameSign(x: real, a: nat, y: real, b: nat)
    requires a > 0 && b > 0 && x * a as real == y * b as real
    ensures x < 0.0 <==> y < 0.0
  {
    if x < 0.0 {
      assert x * a as real < 0.0;
    }
    if y < 0.0 {
      assert y * b as real < 0.0;
    }
  }
}
