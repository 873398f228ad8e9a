// What the pieces of a text hold (app/ingestion/chunking.py:61-110), for every
// text, size and overlap: their lengths, and which source characters they carry.

module Conservation {
  import opened Texts
  import opened Chunking

  // ----- Lengths -----

  ghost predicate Sized(pieces: seq<Text>, maxChars: nat) {
    forall i | 0 <= i < |pieces| :: 1 <= |pieces[i]| <= maxChars
  }

  lemma SizedConcat(a: seq<Text>, b: seq<Text>, maxChars: nat)
    requires Sized(a, maxChars) && Sized(b, maxChars)
    ensures Sized(a + b, maxChars)
  {
  }

  lemma {:induction false} WindowsSized(s: Text, maxChars: nat, overlap: nat)
    requires maxChars >= 1
    ensures Sized(Windows(s, maxChars, overlap), maxChars)
    decreases |s|
  {
    if |s| > maxChars {
      var step := Step(maxChars, overlap);
      WindowsSized(s[step..], maxChars, overlap);
      SizedConcat([s[..maxChars]], Windows(s[step..], maxChars, overlap), maxChars);
    }
  }

  lemma {:induction false} PackSentencesSized(sentences: seq<Text>, current: Text, maxChars: nat, overlap: nat)
    requires maxChars >= 1 && |current| <= maxChars
    ensures Sized(PackSentences(sentences, current, maxChars, overlap), maxChars)
    decreases |sentences|
  {
    hide Windows, Strip;
    if sentences != [] {
      var round := SentenceRound(current, sentences[0], maxChars, overlap);
      var windows := Windows(sentences[0], maxChars, overlap);
      WindowsSized(sentences[0], maxChars, overlap);
      if round.emitted != windows {
        SizedConcat(windows, [current], maxChars);
      }
      PackSentencesSized(sentences[1..], round.current, maxChars, overlap);
      SizedConcat(round.emitted, PackSentences(sentences[1..], round.current, maxChars, overlap), maxChars);
    }
  }

  lemma {:induction false} PackParagraphsSized(paragraphs: seq<Text>, current: Text, maxChars: nat, overlap: nat)
    requires maxChars >= 1 && |current| <= maxChars
    ensures Sized(PackParagraphs(paragraphs, current, maxChars, overlap), maxChars)
    decreases |paragraphs|
  {
    hide Sentences, PackSentences;
    if paragraphs != [] {
      var round := ParagraphRound(current, paragraphs[0], maxChars, overlap);
      PackSentencesSized(Sentences(paragraphs[0]), [], maxChars, overlap);
      SizedConcat(Flush(current), LongParagraphPieces(paragraphs[0], maxChars, overlap), maxChars);
      PackParagraphsSized(paragraphs[1..], round.current, maxChars, overlap);
      SizedConcat(round.emitted, PackParagraphs(paragraphs[1..], round.current, maxChars, overlap), maxChars);
    }
  }

  // No piece is empty and none is longer than maxChars, except that the empty
  // text is its own only piece.
  lemma PiecesSized(text: Text, maxChars: nat, overlap: nat)
    requires maxChars >= 1
    ensures text != [] ==> Sized(TextPieces(text, maxChars, overlap), maxChars)
    ensures text == [] ==> TextPieces(text, maxChars, overlap) == [[]]
  {
    if |text| > maxChars {
      PackParagraphsSized(Paragraphs(text), [], maxChars, overlap);
    }
  }

  // ----- The ink of the cut text is the ink of the text -----

  lemma ParagraphsKeepInk(text: Text)
    ensures InkAll(Paragraphs(text)) == Ink(text)
    ensures AllInked(Paragraphs(text))
  {
    var fields := SplitOn(ParagraphBreak, [], text);
    SplitKeepsInk(ParagraphBreak, [], text);
    NonBlankFacts(fields);
    StripAllFacts(NonBlank(fields));
    SplitKeepsInk(LineBreak, [], text);
    NonBlankFacts(SplitOn(LineBreak, [], text));
  }

  lemma SentencesKeepInk(paragraph: Text)
    ensures InkAll(Sentences(paragraph)) == Ink(paragraph)
  {
    SplitKeepsInk(SentenceEnd, [], paragraph);
  }

  lemma JoinSentenceInk(current: Text, sentence: Text)
    ensures Ink(JoinSentence(current, sentence)) == Ink(current) + Ink(sentence)
  {
    if current != [] {
      StripFacts(current + [SPACE] + sentence);
      InkOfJoin(current, SPACE, sentence);
    }
  }

  lemma JoinParagraphInk(current: Text, paragraph: Text)
    ensures Ink(JoinParagraph(current, paragraph)) == Ink(current) + Ink(paragraph)
  {
    if current != [] {
      InkOfJoin(current, NEWLINE, paragraph);
    }
  }

  lemma FlushInk(current: Text)
    ensures InkAll(Flush(current)) == Ink(current)
  {
    if current != [] {
      InkAllOfOne(current);
    }
  }

  // ----- Coverage: the same source characters, whatever the overlap -----

  ghost predicate SameInk(a: Text, b: Text) {
    forall g: Glyph :: g in a <==> g in b
  }

  // One round covers (current, head); the rounds after it cover what the round
  // left in `current` and the tail.
  lemma SameInkRound(emitted: Text, left: Text, later: Text, current: Text, head: Text, tail: Text)
    requires SameInk(emitted + left, current + head)
    requires SameInk(later, left + tail)
    ensures SameInk(emitted + later, current + (head + tail))
  {
    forall g: Glyph
      ensures g in emitted + later <==> g in current + (head + tail)
    {
      assert g in emitted + left <==> g in current + head;
      assert g in later <==> g in left + tail;
      if g in left {
        assert g in current + head;
      }
    }
  }

  lemma {:induction false} WindowsCover(s: Text, maxChars: nat, overlap: nat)
    requires maxChars >= 1
    ensures SameInk(InkAll(Windows(s, maxChars, overlap)) + Ink(WindowRest(s, maxChars, overlap)), Ink(s))
    decreases |s|
  {
    if |s| > maxChars {
      var step := Step(maxChars, overlap);
      var w, rest := Windows(s[step..], maxChars, overlap), WindowRest(s, maxChars, overlap);
      WindowsCover(s[step..], maxChars, overlap);
      InkAllOfConcat([s[..maxChars]], w);
      InkAllOfOne(s[..maxChars]);
      InkOfSlice(s, maxChars);
      InkOfSlice(s, step);
      InkOfSlice(s[step..], maxChars - step);
      assert s[step..][..maxChars - step] == s[..maxChars][step..];
      InkOfSlice(s[..maxChars], step);
      assert s[..maxChars][..step] == s[..step];
    }
  }

  lemma SentenceRoundCovers(current: Text, sentence: Text, maxChars: nat, overlap: nat)
    requires maxChars >= 1
    ensures var round := SentenceRound(current, sentence, maxChars, overlap);
      SameInk(InkAll(round.emitted) + Ink(round.current), Ink(current) + Ink(sentence))
  {
    hide Windows, WindowRest, JoinSentence;
    var windows, rest := Windows(sentence, maxChars, overlap), WindowRest(sentence, maxChars, overlap);
    WindowsCover(sentence, maxChars, overlap);
    JoinSentenceInk(current, rest);
    InkAllOfConcat(windows, [current]);
    InkAllOfOne(current);
  }

  lemma {:induction false} PackSentencesCover(sentences: seq<Text>, current: Text, maxChars: nat, overlap: nat)
    requires maxChars >= 1
    ensures SameInk(InkAll(PackSentences(sentences, current, maxChars, overlap)), Ink(current) + InkAll(sentences))
    decreases |sentences|
  {
    hide SentenceRound;
    if sentences == [] {
      FlushInk(current);
    } else {
      var round := SentenceRound(current, sentences[0], maxChars, overlap);
      SentenceRoundCovers(current, sentences[0], maxChars, overlap);
      PackSentencesCover(sentences[1..], round.current, maxChars, overlap);
      var later := PackSentences(sentences[1..], round.current, maxChars, overlap);
      InkAllOfConcat(round.emitted, later);
      SameInkRound(InkAll(round.emitted), Ink(round.current), InkAll(later),
        Ink(current), Ink(sentences[0]), InkAll(sentences[1..]));
    }
  }

  lemma TailInk(piece: Text, overlap: nat)
    ensures Ink(piece) == Ink(piece[..|piece| - |Tail(piece, overlap)|]) + Ink(Tail(piece, overlap))
  {
    InkOfSlice(piece, |piece| - |Tail(piece, overlap)|);
  }

  lemma CarryInk(piece: Text, paragraph: Text, maxChars: nat, overlap: nat)
    ensures Ink(Carry(piece, paragraph, maxChars, overlap)) == Ink(Tail(piece, overlap)) + Ink(paragraph)
         || Ink(Carry(piece, paragraph, maxChars, overlap)) == Ink(paragraph)
  {
    JoinParagraphInk(Tail(piece, overlap), paragraph);
  }

  lemma LongParagraphCovers(paragraph: Text, maxChars: nat, overlap: nat)
    requires maxChars >= 1
    ensures SameInk(InkAll(LongParagraphPieces(paragraph, maxChars, overlap)), Ink(paragraph))
  {
    hide SameInk, PackSentences, Sentences;
    PackSentencesCover(Sentences(paragraph), [], maxChars, overlap);
    SentencesKeepInk(paragraph);
    assert Ink([]) + Ink(paragraph) == Ink(paragraph);
  }

  lemma LongRoundCovers(current: Text, pieces: seq<Text>, paragraph: Text)
    requires SameInk(InkAll(pieces), Ink(paragraph))
    ensures SameInk(InkAll(Flush(current) + pieces) + Ink([]), Ink(current) + Ink(paragraph))
  {
    FlushInk(current);
    InkAllOfConcat(Flush(current), pieces);
    assert Ink([]) == [];
    hide Ink, InkAll, Flush;
  }

  lemma CarryCovers(current: Text, paragraph: Text, maxChars: nat, overlap: nat)
    ensures SameInk(InkAll([current]) + Ink(Carry(current, paragraph, maxChars, overlap)),
                    Ink(current) + Ink(paragraph))
  {
    hide Carry, Ink, InkAll;
    InkAllOfOne(current);
    TailInk(current, overlap);
    CarryInk(current, paragraph, maxChars, overlap);
  }

  lemma JoinedRoundCovers(current: Text, paragraph: Text)
    ensures SameInk(InkAll([]) + Ink(JoinParagraph(current, paragraph)), Ink(current) + Ink(paragraph))
  {
    JoinParagraphInk(current, paragraph);
    assert InkAll([]) == [];
    hide Ink, InkAll, JoinParagraph;
  }

  lemma ParagraphRoundCovers(current: Text, paragraph: Text, maxChars: nat, overlap: nat)
    requires maxChars >= 1
    ensures var round := ParagraphRound(current, paragraph, maxChars, overlap);
      SameInk(InkAll(round.emitted) + Ink(round.current), Ink(current) + Ink(paragraph))
  {
    hide SameInk, Ink, InkAll, Carry, JoinParagraph, LongParagraphPieces, Flush;
    if |paragraph| > maxChars {
      LongParagraphCovers(paragraph, maxChars, overlap);
      LongRoundCovers(current, LongParagraphPieces(paragraph, maxChars, overlap), paragraph);
    } else if |JoinParagraph(current, paragraph)| > maxChars {
      CarryCovers(current, paragraph, maxChars, overlap);
    } else {
      JoinedRoundCovers(current, paragraph);
    }
  }

  lemma {:induction false} PackParagraphsCover(paragraphs: seq<Text>, current: Text, maxChars: nat, overlap: nat)
    requires maxChars >= 1
    ensures SameInk(InkAll(PackParagraphs(paragraphs, current, maxChars, overlap)), Ink(current) + InkAll(paragraphs))
    decreases |paragraphs|
  {
    hide ParagraphRound;
    if paragraphs == [] {
      FlushInk(current);
    } else {
      var round := ParagraphRound(current, paragraphs[0], maxChars, overlap);
      ParagraphRoundCovers(current, paragraphs[0], maxChars, overlap);
      PackParagraphsCover(paragraphs[1..], round.current, maxChars, overlap);
      var later := PackParagraphs(paragraphs[1..], round.current, maxChars, overlap);
      InkAllOfConcat(round.emitted, later);
      SameInkRound(InkAll(round.emitted), Ink(round.current), InkAll(later),
        Ink(current), Ink(paragraphs[0]), InkAll(paragraphs[1..]));
    }
  }

  // Every non-whitespace source character is in some piece, and the pieces
  // hold no other ink.
  lemma PiecesCoverText(text: Text, maxChars: nat, overlap: nat)
    requires maxChars >= 1
    ensures SameInk(InkAll(TextPieces(text, maxChars, overlap)), Ink(text))
  {
    if |text| <= maxChars {
      InkAllOfOne(text);
    } else {
      PackParagraphsCover(Paragraphs(text), [], maxChars, overlap);
      ParagraphsKeepInk(text);
    }
  }
}
