// For every size limit there is a text whose pieces are out of document order:
// the windows of its long second sentence are emitted before its first one.

module OrderCounterexample {
  import opened Texts
  import opened Chunking
  import opened DocumentOrder

  // A full stop, a space and a word of n letters.
  function DotAndWord(n: nat): Text {
    [Glyph('.', 0), Glyph(' ', 1)] + Word(n)
  }

  function Word(n: nat): (word: Text)
    ensures |word| == n && forall i | 0 <= i < n :: word[i] == Glyph('b', i + 2)
  {
    seq(n, i => Glyph('b', i + 2))
  }

  // A text without separators is one field.
  lemma {:induction false} OneField(sep: Separator, field: Text, t: Text)
    requires forall i | 0 <= i < |t| :: !IsLineBreak(t[i].ch)
    requires sep == SentenceEnd ==> forall i | 0 <= i < |t| :: !IsSpace(t[i].ch)
    ensures SplitOn(sep, field, t) == [field + t]
    decreases |t|
  {
    if t == [] {
      assert field + t == field;
    } else {
      assert t[0] in t && !IsLineBreak(t[0].ch);
      assert NewlineRun(t) == 0;
      assert sep == SentenceEnd ==> SpaceRun(t) == 0;
      OneField(sep, field + [t[0]], t[1..]);
      assert field + [t[0]] + t[1..] == field + t;
    }
  }

  lemma SplitSteps(t: Text, rest: Text)
    requires t == [Glyph('.', 0), Glyph(' ', 1)] + rest && rest != [] && !IsSpace(rest[0].ch)
    ensures SplitOn(SentenceEnd, [], t) == [[Glyph('.', 0)]] + SplitOn(SentenceEnd, [], rest)
  {
    var dot, tail := [Glyph('.', 0)], [Glyph(' ', 1)] + rest;
    assert t[1..] == tail && tail[1..] == rest && [] + [t[0]] == dot;
    assert SeparatorLength(SentenceEnd, [], t) == 0;
    assert SplitOn(SentenceEnd, [], t) == SplitOn(SentenceEnd, dot, tail);
    assert SpaceRun(rest) == 0 && SpaceRun(tail) == 1;
    assert SeparatorLength(SentenceEnd, dot, tail) == 1;
  }

  lemma TwoSentences(n: nat)
    requires n > 0
    ensures Sentences(DotAndWord(n)) == [[Glyph('.', 0)], Word(n)]
  {
    SplitSteps(DotAndWord(n), Word(n));
    OneField(SentenceEnd, [], Word(n));
    assert [] + Word(n) == Word(n);
    hide SplitOn;
  }

  lemma OneParagraph(n: nat)
    requires n > 0
    ensures Paragraphs(DotAndWord(n)) == [DotAndWord(n)]
  {
    var t := DotAndWord(n);
    assert forall i | 0 <= i < |t| :: t[i].ch == '.' || t[i].ch == ' ' || t[i].ch == 'b';
    assert [] + t == t;
    OneField(ParagraphBreak, [], t);
    OneField(LineBreak, [], t);
    assert !IsSpace(t[0].ch) && !IsSpace(t[|t| - 1].ch);
    assert Strip(t) == t;
    hide SplitOn, Strip, DotAndWord;
    assert [t][1..] == [];
    assert NonBlank([t]) == [t];
    assert StripAll([t]) == [t];
  }

  lemma NotTidy(maxChars: nat)
    ensures !TidyText(DotAndWord(maxChars + 1), maxChars)
  {
    var text := DotAndWord(maxChars + 1);
    TwoSentences(maxChars + 1);
    OneParagraph(maxChars + 1);
    hide Paragraphs, Sentences;
    var sentences := Sentences(text);
    assert |sentences[1..][0]| > maxChars;
    assert Paragraphs(text)[0] == text && |text| > maxChars;
    assert !Tidy(text, maxChars);
  }

  // Whatever the limit, some text longer than it is cut into pieces that do
  // not follow the text.
  lemma SomeTextIsReordered(maxChars: nat)
    requires maxChars >= 1
    ensures var text := DotAndWord(maxChars + 1);
      Increasing(Ink(text)) && InkAll(TextPieces(text, maxChars, 0)) != Ink(text)
  {
    var text := DotAndWord(maxChars + 1);
    IncreasingInk(text);
    NotTidy(maxChars);
    hide *;
    OrderKeptIffTidy(text, maxChars);
  }

  lemma {:induction false} IncreasingInk(t: Text)
    requires Increasing(t)
    ensures Increasing(Ink(t))
  {
    if t != [] {
      var rest := t[1..];
      IncreasingInk(rest);
      forall g | g in Ink(rest) ensures t[0].src < g.src {
        InkMembers(rest, g);
        var i :| 0 <= i < |rest| && rest[i] == g;
        assert t[i + 1] == g;
      }
      assert AllBefore([t[0]], Ink(rest));
      IncreasingConcat([t[0]], Ink(rest));
      hide Ink;
    }
  }
}
