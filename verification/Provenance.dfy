// The source positions carried by a text do not influence how it is chunked:
// texts with the same characters give pieces with the same characters. So what
// is proved here of texts with positions holds of the plain strings that the
// code works on.

module Provenance {
  import opened Texts
  import opened Chunking

  // The same string, whatever the positions.
  ghost predicate Alike(a: Text, b: Text) {
    |a| == |b| && forall i | 0 <= i < |a| :: a[i].ch == b[i].ch
  }

  ghost predicate AllAlike(a: seq<Text>, b: seq<Text>) {
    |a| == |b| && forall i | 0 <= i < |a| :: Alike(a[i], b[i])
  }

  lemma AlikeIsSameChars(a: Text, b: Text)
    ensures Alike(a, b) <==> Chars(a) == Chars(b)
  {
    if Chars(a) == Chars(b) {
      forall i | 0 <= i < |a| ensures a[i].ch == b[i].ch {
        assert Chars(a)[i] == Chars(b)[i];
      }
    }
  }

  lemma AlikeConcat(a: Text, b: Text, c: Text, d: Text)
    requires Alike(a, b) && Alike(c, d)
    ensures Alike(a + c, b + d)
  {
  }

  lemma AlikeSlice(a: Text, b: Text, i: nat, j: nat)
    requires Alike(a, b) && i <= j <= |a|
    ensures Alike(a[i..j], b[i..j])
  {
  }

  lemma AllAlikeConcat(a: seq<Text>, b: seq<Text>, c: seq<Text>, d: seq<Text>)
    requires AllAlike(a, b) && AllAlike(c, d)
    ensures AllAlike(a + c, b + d)
  {
    hide Alike;
  }

  lemma {:induction false} LStripAlike(a: Text, b: Text)
    requires Alike(a, b)
    ensures Alike(LStrip(a), LStrip(b))
  {
    if a != [] && IsSpace(a[0].ch) {
      LStripAlike(a[1..], b[1..]);
    }
  }

  lemma {:induction false} RStripAlike(a: Text, b: Text)
    requires Alike(a, b)
    ensures Alike(RStrip(a), RStrip(b))
  {
    if a != [] && IsSpace(a[|a| - 1].ch) {
      RStripAlike(a[..|a| - 1], b[..|b| - 1]);
    }
  }

  lemma StripAlike(a: Text, b: Text)
    requires Alike(a, b)
    ensures Alike(Strip(a), Strip(b))
  {
    RStripAlike(a, b);
    LStripAlike(RStrip(a), RStrip(b));
  }

  lemma {:induction false} RunsAlike(a: Text, b: Text)
    requires Alike(a, b)
    ensures NewlineRun(a) == NewlineRun(b) && SpaceRun(a) == SpaceRun(b)
  {
    if a != [] {
      RunsAlike(a[1..], b[1..]);
    }
  }

  lemma SeparatorAlike(sep: Separator, fieldA: Text, fieldB: Text, a: Text, b: Text)
    requires Alike(fieldA, fieldB) && Alike(a, b)
    ensures SeparatorLength(sep, fieldA, a) == SeparatorLength(sep, fieldB, b)
  {
    RunsAlike(a, b);
    hide NewlineRun, SpaceRun;
  }

  lemma {:induction false} SplitAlike(sep: Separator, fieldA: Text, fieldB: Text, a: Text, b: Text)
    requires Alike(fieldA, fieldB) && Alike(a, b)
    ensures AllAlike(SplitOn(sep, fieldA, a), SplitOn(sep, fieldB, b))
    decreases |a|
  {
    SeparatorAlike(sep, fieldA, fieldB, a, b);
    hide SeparatorLength;
    var n := SeparatorLength(sep, fieldA, a);
    if a != [] {
      if n > 0 {
        assert Alike(a[n..], b[n..]) && Alike([], []) && AllAlike([fieldA], [fieldB]);
        hide Alike;
        SplitAlike(sep, [], [], a[n..], b[n..]);
        AllAlikeConcat([fieldA], [fieldB], SplitOn(sep, [], a[n..]), SplitOn(sep, [], b[n..]));
      } else {
        assert Alike(fieldA + [a[0]], fieldB + [b[0]]) && Alike(a[1..], b[1..]);
        hide Alike;
        SplitAlike(sep, fieldA + [a[0]], fieldB + [b[0]], a[1..], b[1..]);
      }
    }
  }

  lemma {:induction false} NonBlankAlike(a: seq<Text>, b: seq<Text>)
    requires AllAlike(a, b)
    ensures AllAlike(NonBlank(a), NonBlank(b))
  {
    if a != [] {
      StripAlike(a[0], b[0]);
      hide Strip;
      NonBlankAlike(a[1..], b[1..]);
    }
  }

  lemma {:induction false} StripAllAlike(a: seq<Text>, b: seq<Text>)
    requires AllAlike(a, b)
    ensures AllAlike(StripAll(a), StripAll(b))
  {
    if a != [] {
      StripAlike(a[0], b[0]);
      hide Strip;
      StripAllAlike(a[1..], b[1..]);
    }
  }

  lemma {:induction false} WindowsAlike(a: Text, b: Text, maxChars: nat, overlap: nat)
    requires maxChars >= 1 && Alike(a, b)
    ensures AllAlike(Windows(a, maxChars, overlap), Windows(b, maxChars, overlap))
    ensures Alike(WindowRest(a, maxChars, overlap), WindowRest(b, maxChars, overlap))
    decreases |a|
  {
    if |a| > maxChars {
      var step := Step(maxChars, overlap);
      AlikeSlice(a, b, 0, maxChars);
      AlikeSlice(a, b, step, |a|);
      hide Alike;
      assert a[0..maxChars] == a[..maxChars] && b[0..maxChars] == b[..maxChars];
      assert a[step..|a|] == a[step..] && b[step..|a|] == b[step..];
      WindowsAlike(a[step..], b[step..], maxChars, overlap);
    }
  }

  lemma JoinSentenceAlike(a: Text, b: Text, c: Text, d: Text)
    requires Alike(a, b) && Alike(c, d)
    ensures Alike(JoinSentence(a, c), JoinSentence(b, d))
  {
    if a != [] {
      AlikeConcat(a, b, [SPACE], [SPACE]);
      AlikeConcat(a + [SPACE], b + [SPACE], c, d);
      StripAlike(a + [SPACE] + c, b + [SPACE] + d);
    }
  }

  lemma FlushAlike(a: Text, b: Text)
    requires Alike(a, b)
    ensures AllAlike(Flush(a), Flush(b))
  {
  }

  lemma SentenceRoundAlike(
      currentA: Text, currentB: Text, a: Text, b: Text, maxChars: nat, overlap: nat)
    requires maxChars >= 1 && Alike(a, b) && Alike(currentA, currentB)
    ensures var ra, rb := SentenceRound(currentA, a, maxChars, overlap), SentenceRound(currentB, b, maxChars, overlap);
      AllAlike(ra.emitted, rb.emitted) && Alike(ra.current, rb.current)
  {
    hide Windows, WindowRest, JoinSentence;
    WindowsAlike(a, b, maxChars, overlap);
    JoinSentenceAlike(currentA, currentB, WindowRest(a, maxChars, overlap), WindowRest(b, maxChars, overlap));
  }

  lemma {:induction false} PackSentencesAlike(
      a: seq<Text>, b: seq<Text>, currentA: Text, currentB: Text, maxChars: nat, overlap: nat)
    requires maxChars >= 1 && AllAlike(a, b) && Alike(currentA, currentB)
    ensures AllAlike(PackSentences(a, currentA, maxChars, overlap), PackSentences(b, currentB, maxChars, overlap))
    decreases |a|
  {
    hide SentenceRound, Alike, Flush;
    if a == [] {
      FlushAlike(currentA, currentB);
    } else {
      SentenceRoundAlike(currentA, currentB, a[0], b[0], maxChars, overlap);
      var ra, rb := SentenceRound(currentA, a[0], maxChars, overlap), SentenceRound(currentB, b[0], maxChars, overlap);
      PackSentencesAlike(a[1..], b[1..], ra.current, rb.current, maxChars, overlap);
    }
  }

  lemma LongParagraphAlike(a: Text, b: Text, maxChars: nat, overlap: nat)
    requires maxChars >= 1 && Alike(a, b)
    ensures AllAlike(LongParagraphPieces(a, maxChars, overlap), LongParagraphPieces(b, maxChars, overlap))
  {
    hide SplitOn, PackSentences;
    SplitAlike(SentenceEnd, [], [], a, b);
    PackSentencesAlike(Sentences(a), Sentences(b), [], [], maxChars, overlap);
  }

  lemma JoinParagraphAlike(a: Text, b: Text, c: Text, d: Text)
    requires Alike(a, b) && Alike(c, d)
    ensures Alike(JoinParagraph(a, c), JoinParagraph(b, d))
  {
    if a != [] {
      AlikeConcat(a, b, [NEWLINE], [NEWLINE]);
      AlikeConcat(a + [NEWLINE], b + [NEWLINE], c, d);
    }
  }

  lemma CarryAlike(a: Text, b: Text, c: Text, d: Text, maxChars: nat, overlap: nat)
    requires Alike(a, b) && Alike(c, d)
    ensures Alike(Carry(a, c, maxChars, overlap), Carry(b, d, maxChars, overlap))
  {
    assert Alike(Tail(a, overlap), Tail(b, overlap));
    hide Tail;
    JoinParagraphAlike(Tail(a, overlap), Tail(b, overlap), c, d);
  }

  lemma AlikeIsAsLong(a: Text, b: Text)
    requires Alike(a, b)
    ensures |a| == |b| && Alike([], [])
  {
  }

  lemma ParagraphRoundAlike(a: Text, b: Text, c: Text, d: Text, maxChars: nat, overlap: nat)
    requires maxChars >= 1 && Alike(a, b) && Alike(c, d)
    ensures var ra, rb := ParagraphRound(a, c, maxChars, overlap), ParagraphRound(b, d, maxChars, overlap);
      AllAlike(ra.emitted, rb.emitted) && Alike(ra.current, rb.current)
  {
    hide LongParagraphPieces, JoinParagraph, Carry, Flush, Alike;
    LongParagraphAlike(c, d, maxChars, overlap);
    JoinParagraphAlike(a, b, c, d);
    CarryAlike(a, b, c, d, maxChars, overlap);
    AlikeIsAsLong(c, d);
    AlikeIsAsLong(JoinParagraph(a, c), JoinParagraph(b, d));
    FlushAlike(a, b);
    if |c| > maxChars {
      AllAlikeConcat(
        Flush(a), Flush(b), LongParagraphPieces(c, maxChars, overlap), LongParagraphPieces(d, maxChars, overlap));
    }
  }

  lemma {:induction false} PackParagraphsAlike(
      a: seq<Text>, b: seq<Text>, currentA: Text, currentB: Text, maxChars: nat, overlap: nat)
    requires maxChars >= 1 && AllAlike(a, b) && Alike(currentA, currentB)
    ensures AllAlike(PackParagraphs(a, currentA, maxChars, overlap), PackParagraphs(b, currentB, maxChars, overlap))
    decreases |a|
  {
    hide ParagraphRound;
    if a != [] {
      ParagraphRoundAlike(currentA, currentB, a[0], b[0], maxChars, overlap);
      var ra := ParagraphRound(currentA, a[0], maxChars, overlap);
      var rb := ParagraphRound(currentB, b[0], maxChars, overlap);
      hide Alike;
      PackParagraphsAlike(a[1..], b[1..], ra.current, rb.current, maxChars, overlap);
    }
  }

  lemma ParagraphsAlike(a: Text, b: Text)
    requires Alike(a, b)
    ensures AllAlike(Paragraphs(a), Paragraphs(b))
  {
    hide SplitOn, NonBlank, StripAll;
    SplitAlike(ParagraphBreak, [], [], a, b);
    SplitAlike(LineBreak, [], [], a, b);
    hide Alike;
    NonBlankAlike(SplitOn(ParagraphBreak, [], a), SplitOn(ParagraphBreak, [], b));
    StripAllAlike(NonBlank(SplitOn(ParagraphBreak, [], a)), NonBlank(SplitOn(ParagraphBreak, [], b)));
    NonBlankAlike(SplitOn(LineBreak, [], a), SplitOn(LineBreak, [], b));
  }

  // Texts with the same characters are cut into pieces with the same characters.
  lemma PiecesDependOnCharactersOnly(a: Text, b: Text, maxChars: nat, overlap: nat)
    requires maxChars >= 1 && Chars(a) == Chars(b)
    ensures var p, q := TextPieces(a, maxChars, overlap), TextPieces(b, maxChars, overlap);
      |p| == |q| && forall i | 0 <= i < |p| :: Chars(p[i]) == Chars(q[i])
  {
    AlikeIsSameChars(a, b);
    hide Paragraphs, PackParagraphs;
    ParagraphsAlike(a, b);
    PackParagraphsAlike(Paragraphs(a), Paragraphs(b), [], [], maxChars, overlap);
    var p, q := TextPieces(a, maxChars, overlap), TextPieces(b, maxChars, overlap);
    forall i | 0 <= i < |p| && |p| == |q| ensures Alike(p[i], q[i]) ==> Chars(p[i]) == Chars(q[i]) {
      AlikeIsSameChars(p[i], q[i]);
    }
    assert AllAlike(p, q);
  }
}
