// The hard sliding window (app/ingestion/chunking.py:98-101) in closed form.

module SlidingWindow {
  import opened Texts
  import opened Chunking

  function WindowCount(n: nat, maxChars: nat, overlap: nat): nat
    requires maxChars >= 1
  {
    if n <= maxChars then 0 else 1 + WindowCount(n - Step(maxChars, overlap), maxChars, overlap)
  }

  // Where the i-th window starts.
  function Start(i: nat, step: nat): nat {
    if i == 0 then 0 else Start(i - 1, step) + step
  }

  lemma {:induction false} StartIsProduct(i: nat, step: nat)
    ensures Start(i, step) == i * step
  {
    if i > 0 {
      StartIsProduct(i - 1, step);
      assert i * step == (i - 1) * step + step;
    }
  }

  lemma {:induction false} StartIsAdditive(i: nat, step: nat)
    ensures Start(i + 1, step) == step + Start(i, step)
  {
    if i > 0 {
      StartIsAdditive(i - 1, step);
    }
  }

  // The number of windows is ceil((n - maxChars) / step).
  lemma {:induction false} WindowCountBounds(n: nat, maxChars: nat, overlap: nat)
    requires maxChars >= 1 && n > maxChars
    ensures var step, count := Step(maxChars, overlap), WindowCount(n, maxChars, overlap);
      count >= 1 && Start(count - 1, step) < n - maxChars <= Start(count, step)
    decreases n
  {
    var step := Step(maxChars, overlap);
    var count := WindowCount(n - step, maxChars, overlap);
    if n - step > maxChars {
      WindowCountBounds(n - step, maxChars, overlap);
      StartIsAdditive(count - 1, step);
      StartIsAdditive(count, step);
    }
  }

  lemma ProductIsMonotone(a: int, b: int, step: nat)
    ensures a <= b ==> a * step <= b * step
  {
  }

  lemma QuotientIs(a: nat, step: nat, count: nat)
    requires step >= 1 && count >= 1
    requires (count - 1) * step < a <= count * step
    ensures (a + step - 1) / step == count
  {
    var q, r := (a + step - 1) / step, (a + step - 1) % step;
    assert a + step - 1 == q * step + r;
    ProductIsMonotone(q, count - 1, step);
    ProductIsMonotone(count + 1, q, step);
  }

  lemma WindowCountIsCeiling(n: nat, maxChars: nat, overlap: nat)
    requires maxChars >= 1 && n > maxChars
    ensures WindowCount(n, maxChars, overlap)
         == (n - maxChars + Step(maxChars, overlap) - 1) / Step(maxChars, overlap)
  {
    var step, count := Step(maxChars, overlap), WindowCount(n, maxChars, overlap);
    WindowCountBounds(n, maxChars, overlap);
    StartIsProduct(count - 1, step);
    StartIsProduct(count, step);
    QuotientIs(n - maxChars, step, count);
  }

  ghost predicate IsWindow(s: Text, window: Text, start: nat, maxChars: nat) {
    start + maxChars < |s| && window == s[start..start + maxChars]
  }

  lemma {:induction false} WindowsCounted(s: Text, maxChars: nat, overlap: nat)
    requires maxChars >= 1
    ensures |Windows(s, maxChars, overlap)| == WindowCount(|s|, maxChars, overlap)
    decreases |s|
  {
    if |s| > maxChars {
      WindowsCounted(s[Step(maxChars, overlap)..], maxChars, overlap);
    }
  }

  // Where the i-th window lies, one at a time.
  lemma {:induction false} WindowAt(s: Text, maxChars: nat, overlap: nat, i: nat)
    requires maxChars >= 1
    requires i < |Windows(s, maxChars, overlap)|
    ensures IsWindow(s, Windows(s, maxChars, overlap)[i], Start(i, Step(maxChars, overlap)), maxChars)
    decreases i
  {
    var step := Step(maxChars, overlap);
    var shorter := s[step..];
    var w, v := Windows(s, maxChars, overlap), Windows(shorter, maxChars, overlap);
    assert w == [s[..maxChars]] + v;
    if i > 0 {
      WindowAt(shorter, maxChars, overlap, i - 1);
      StartIsAdditive(i - 1, step);
      assert w[i] == v[i - 1];
      SliceOfSuffix(s, step, Start(i - 1, step), maxChars);
    }
  }

  lemma SliceOfSuffix(s: Text, step: nat, a: nat, length: nat)
    requires step + a + length <= |s|
    ensures s[step..][a..a + length] == s[step + a..step + a + length]
  {
  }

  lemma {:induction false} RestAt(s: Text, maxChars: nat, overlap: nat)
    requires maxChars >= 1
    ensures var start := Start(WindowCount(|s|, maxChars, overlap), Step(maxChars, overlap));
      start <= |s| && WindowRest(s, maxChars, overlap) == s[start..]
    decreases |s|
  {
    if |s| <= maxChars {
      assert s[0..] == s;
    } else {
      var step := Step(maxChars, overlap);
      var count := WindowCount(|s| - step, maxChars, overlap);
      RestAt(s[step..], maxChars, overlap);
      StartIsAdditive(count, step);
      assert s[step..][Start(count, step)..] == s[Start(count, step) + step..];
    }
  }

  // The loop emits ceil((n - maxChars) / step) windows, the i-th of them at
  // i * step, and leaves the characters from count * step on.
  lemma {:induction false} WindowsClosedForm(s: Text, maxChars: nat, overlap: nat)
    requires maxChars >= 1 && |s| > maxChars
    ensures var step, w := Step(maxChars, overlap), Windows(s, maxChars, overlap);
      && |w| == (|s| - maxChars + step - 1) / step
      && (forall i | 0 <= i < |w| :: IsWindow(s, w[i], Start(i, step), maxChars) && Start(i, step) == i * step)
      && Start(|w|, step) == |w| * step <= |s|
      && WindowRest(s, maxChars, overlap) == s[Start(|w|, step)..]
  {
    var step, w := Step(maxChars, overlap), Windows(s, maxChars, overlap);
    WindowsCounted(s, maxChars, overlap);
    WindowCountIsCeiling(|s|, maxChars, overlap);
    RestAt(s, maxChars, overlap);
    StartIsProduct(|w|, step);
    forall i | 0 <= i < |w|
      ensures IsWindow(s, w[i], Start(i, step), maxChars) && Start(i, step) == i * step
    {
      WindowAt(s, maxChars, overlap, i);
      StartIsProduct(i, step);
    }
  }

  // With a proper overlap, consecutive windows share exactly `overlap`
  // characters, the remainder repeats the end of the last window in the same
  // way, and it always brings characters that no window holds.
  lemma {:induction false} WindowsShareOverlap(s: Text, maxChars: nat, overlap: nat)
    requires overlap < maxChars < |s|
    ensures var w, rest := Windows(s, maxChars, overlap), WindowRest(s, maxChars, overlap);
      && |w| > 0
      && (forall i | 0 <= i < |w| :: |w[i]| == maxChars)
      && (forall i | 0 <= i < |w| - 1 :: w[i][maxChars - overlap..] == w[i + 1][..overlap])
      && overlap < |rest| <= maxChars
      && w[|w| - 1][maxChars - overlap..] == rest[..overlap]
  {
    var step := Step(maxChars, overlap);
    var w, rest := Windows(s, maxChars, overlap), WindowRest(s, maxChars, overlap);
    WindowsCounted(s, maxChars, overlap);
    forall i | 0 <= i < |w| ensures |w[i]| == maxChars {
      WindowAt(s, maxChars, overlap, i);
    }
    forall i | 0 <= i < |w| - 1 ensures w[i][maxChars - overlap..] == w[i + 1][..overlap] {
      WindowAt(s, maxChars, overlap, i);
      WindowAt(s, maxChars, overlap, i + 1);
      StartIsAdditive(i, step);
      SharedEnds(s, Start(i, step), maxChars, step);
    }
    RestSharesOverlap(s, maxChars, overlap);
  }

  lemma SuffixOfSlice(s: Text, a: nat, maxChars: nat, step: nat)
    requires step <= maxChars && a + maxChars <= |s|
    ensures s[a..a + maxChars][step..] == s[a + step..][..maxChars - step]
  {
  }

  lemma RestSharesOverlap(s: Text, maxChars: nat, overlap: nat)
    requires overlap < maxChars < |s|
    ensures var w, rest := Windows(s, maxChars, overlap), WindowRest(s, maxChars, overlap);
      && |w| > 0
      && overlap < |rest|
      && |w[|w| - 1]| == maxChars
      && w[|w| - 1][maxChars - overlap..] == rest[..overlap]
  {
    var step, last := Step(maxChars, overlap), WindowCount(|s|, maxChars, overlap) - 1;
    WindowCountBounds(|s|, maxChars, overlap);
    WindowsCounted(s, maxChars, overlap);
    WindowAt(s, maxChars, overlap, last);
    RestAt(s, maxChars, overlap);
    SuffixOfSlice(s, Start(last, step), maxChars, step);
  }

  lemma SharedEnds(s: Text, a: nat, maxChars: nat, step: nat)
    requires step <= maxChars && a + step + maxChars <= |s|
    ensures s[a..a + maxChars][step..] == s[a + step..a + step + maxChars][..maxChars - step]
  {
  }

  // Without overlap, or with one that does not fit, the windows and the
  // remainder are consecutive: they are the sentence, cut.
  lemma {:induction false} WindowsCutSentence(s: Text, maxChars: nat)
    requires maxChars >= 1
    ensures InkAll(Windows(s, maxChars, 0)) + Ink(WindowRest(s, maxChars, 0)) == Ink(s)
    decreases |s|
  {
    if |s| > maxChars {
      var first, shorter := s[..maxChars], s[maxChars..];
      WindowsCutSentence(shorter, maxChars);
      InkOfSlice(s, maxChars);
      InkAllOfConcat([first], Windows(shorter, maxChars, 0));
      InkAllOfOne(first);
      Associative(Ink(first), InkAll(Windows(shorter, maxChars, 0)), Ink(WindowRest(shorter, maxChars, 0)));
    }
  }
}
