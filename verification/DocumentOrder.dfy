// The order of the source characters in the pieces
// (app/ingestion/chunking.py:61-110): inside each piece always, across pieces
// exactly when the sliding window is used on first sentences only.

module DocumentOrder {
  import opened Texts
  import opened Chunking
  import opened SlidingWindow
  import opened Conservation

  // ----- Inside a piece the source positions strictly increase -----

  ghost predicate EachIncreasing(pieces: seq<Text>) {
    forall i | 0 <= i < |pieces| :: Increasing(Ink(pieces[i]))
  }

  lemma EachIncreasingConcat(a: seq<Text>, b: seq<Text>)
    requires EachIncreasing(a) && EachIncreasing(b)
    ensures EachIncreasing(a + b)
  {
  }

  lemma SuffixIncreasing(x: Text, y: Text)
    requires Increasing(x + y)
    ensures Increasing(x) && Increasing(y)
  {
    IncreasingConcat(x, y);
  }

  lemma {:induction false} WindowsIncreasing(s: Text, maxChars: nat, overlap: nat)
    requires maxChars >= 1 && Increasing(Ink(s))
    ensures EachIncreasing(Windows(s, maxChars, overlap))
    decreases |s|
  {
    if |s| > maxChars {
      var step := Step(maxChars, overlap);
      InkOfSlice(s, maxChars);
      SuffixIncreasing(Ink(s[..maxChars]), Ink(s[maxChars..]));
      InkOfSlice(s, step);
      SuffixIncreasing(Ink(s[..step]), Ink(s[step..]));
      WindowsIncreasing(s[step..], maxChars, overlap);
      EachIncreasingConcat([s[..maxChars]], Windows(s[step..], maxChars, overlap));
    }
  }

  // The remainder is a suffix of the sentence.
  lemma {:induction false} RestIsSuffix(s: Text, maxChars: nat, overlap: nat) returns (n: nat)
    requires maxChars >= 1
    ensures n <= |s| && WindowRest(s, maxChars, overlap) == s[n..]
    ensures Ink(s) == Ink(s[..n]) + Ink(WindowRest(s, maxChars, overlap))
    decreases |s|
  {
    if |s| <= maxChars {
      n := 0;
      assert s == s[0..];
    } else {
      var step := Step(maxChars, overlap);
      var m := RestIsSuffix(s[step..], maxChars, overlap);
      n := step + m;
      assert s[step..][m..] == s[n..];
      InkOfSlice(s, n);
    }
  }

  // A round leaves in `current` part of what came in, in the same order.
  lemma SentenceRoundIncreasing(current: Text, sentence: Text, later: Text, maxChars: nat, overlap: nat)
    requires maxChars >= 1
    requires Increasing(Ink(current) + Ink(sentence) + later)
    ensures var round := SentenceRound(current, sentence, maxChars, overlap);
      EachIncreasing(round.emitted) && Increasing(Ink(round.current) + later)
  {
    hide Windows, WindowRest, JoinSentence;
    var rest := WindowRest(sentence, maxChars, overlap);
    var n := RestIsSuffix(sentence, maxChars, overlap);
    var cut := Ink(sentence[..n]);
    IncreasingParts(Ink(current), Ink(sentence), later);
    WindowsIncreasing(sentence, maxChars, overlap);
    JoinSentenceInk(current, rest);
    EachIncreasingConcat(Windows(sentence, maxChars, overlap), [current]);
    DropMiddle(Ink(current), cut, Ink(rest), later);
  }

  lemma DropMiddle(a: Text, cut: Text, b: Text, c: Text)
    requires Increasing(a + (cut + b) + c)
    ensures Increasing(a + b + c) && Increasing(b + c)
  {
    Associative(a, cut + b, c);
    Associative(cut, b, c);
    assert a + (cut + b) + c == a + cut + (b + c);
    IncreasingParts(a, cut, b + c);
    Associative(a, b, c);
  }

  lemma {:induction false} PackSentencesIncreasing(sentences: seq<Text>, current: Text, maxChars: nat, overlap: nat)
    requires maxChars >= 1
    requires Increasing(Ink(current) + InkAll(sentences))
    ensures EachIncreasing(PackSentences(sentences, current, maxChars, overlap))
    decreases |sentences|
  {
    hide SentenceRound;
    if sentences == [] {
      SuffixIncreasing(Ink(current), []);
    } else {
      var round := SentenceRound(current, sentences[0], maxChars, overlap);
      Associative(Ink(current), Ink(sentences[0]), InkAll(sentences[1..]));
      SentenceRoundIncreasing(current, sentences[0], InkAll(sentences[1..]), maxChars, overlap);
      PackSentencesIncreasing(sentences[1..], round.current, maxChars, overlap);
      EachIncreasingConcat(round.emitted, PackSentences(sentences[1..], round.current, maxChars, overlap));
    }
  }

  lemma ParagraphRoundIncreasing(current: Text, paragraph: Text, later: Text, maxChars: nat, overlap: nat)
    requires maxChars >= 1
    requires Increasing(Ink(current) + Ink(paragraph) + later)
    ensures var round := ParagraphRound(current, paragraph, maxChars, overlap);
      EachIncreasing(round.emitted) && Increasing(Ink(round.current) + later)
  {
    hide Carry, JoinParagraph, LongParagraphPieces, Ink, Increasing, EachIncreasing;
    IncreasingParts(Ink(current), Ink(paragraph), later);
    CurrentIncreasing(current);
    if |paragraph| > maxChars {
      LongParagraphIncreasing(paragraph, maxChars, overlap);
      EachIncreasingConcat(Flush(current), LongParagraphPieces(paragraph, maxChars, overlap));
      NoInk(later);
    } else {
      hide Flush;
      JoinParagraphInk(current, paragraph);
      CarryIncreasing(current, paragraph, later, maxChars, overlap);
    }
  }

  lemma CurrentIncreasing(current: Text)
    requires Increasing(Ink(current))
    ensures EachIncreasing([]) && EachIncreasing([current]) && EachIncreasing(Flush(current))
  {
    hide Ink, Increasing;
  }

  lemma NoInk(later: Text)
    ensures Ink([]) + later == later
  {
  }

  lemma LongParagraphIncreasing(paragraph: Text, maxChars: nat, overlap: nat)
    requires maxChars >= 1
    requires Increasing(Ink(paragraph))
    ensures EachIncreasing(LongParagraphPieces(paragraph, maxChars, overlap))
  {
    SentencesKeepInk(paragraph);
    PackSentencesIncreasing(Sentences(paragraph), [], maxChars, overlap);
  }

  lemma CarryIncreasing(current: Text, paragraph: Text, later: Text, maxChars: nat, overlap: nat)
    requires Increasing(Ink(current) + Ink(paragraph) + later)
    ensures Increasing(Ink(Carry(current, paragraph, maxChars, overlap)) + later)
  {
    hide Carry, Tail;
    var tail := Tail(current, overlap);
    var front := Ink(current[..|current| - |tail|]);
    TailInk(current, overlap);
    CarryInk(current, paragraph, maxChars, overlap);
    IncreasingParts(Ink(current), Ink(paragraph), later);
    DropFront(front, Ink(tail), Ink(paragraph), later);
  }

  lemma DropFront(front: Text, a: Text, b: Text, c: Text)
    requires Increasing(front + a + b + c)
    ensures Increasing(a + b + c)
  {
    Associative(front, a, b);
    Associative(front, a + b, c);
    SuffixIncreasing(front, a + b + c);
  }

  lemma {:induction false} PackParagraphsIncreasing(paragraphs: seq<Text>, current: Text, maxChars: nat, overlap: nat)
    requires maxChars >= 1
    requires Increasing(Ink(current) + InkAll(paragraphs))
    ensures EachIncreasing(PackParagraphs(paragraphs, current, maxChars, overlap))
    decreases |paragraphs|
  {
    hide ParagraphRound;
    if paragraphs == [] {
      SuffixIncreasing(Ink(current), []);
    } else {
      var round := ParagraphRound(current, paragraphs[0], maxChars, overlap);
      Associative(Ink(current), Ink(paragraphs[0]), InkAll(paragraphs[1..]));
      ParagraphRoundIncreasing(current, paragraphs[0], InkAll(paragraphs[1..]), maxChars, overlap);
      PackParagraphsIncreasing(paragraphs[1..], round.current, maxChars, overlap);
      EachIncreasingConcat(round.emitted, PackParagraphs(paragraphs[1..], round.current, maxChars, overlap));
    }
  }

  // Whatever the overlap, no piece repeats or reorders source characters.
  lemma PiecesIncreasing(text: Text, maxChars: nat, overlap: nat)
    requires maxChars >= 1
    requires Increasing(Ink(text))
    ensures EachIncreasing(TextPieces(text, maxChars, overlap))
  {
    if |text| > maxChars {
      ParagraphsKeepInk(text);
      PackParagraphsIncreasing(Paragraphs(text), [], maxChars, overlap);
    }
  }

  // ----- Without overlap nothing is repeated -----

  // The occurrences of one round and of the rounds after it add up.
  lemma OnceRound(emitted: Text, left: Text, later: Text, current: Text, head: Text, tail: Text)
    requires multiset(emitted) + multiset(left) == multiset(current) + multiset(head)
    requires multiset(later) == multiset(left) + multiset(tail)
    ensures multiset(emitted + later) == multiset(current) + multiset(head + tail)
  {
    assert multiset(emitted + later) == multiset(emitted) + multiset(later);
    assert multiset(head + tail) == multiset(head) + multiset(tail);
    var total := multiset(emitted) + (multiset(left) + multiset(tail));
    assert total == (multiset(emitted) + multiset(left)) + multiset(tail);
    assert (multiset(current) + multiset(head)) + multiset(tail)
        == multiset(current) + (multiset(head) + multiset(tail));
  }

  lemma SentenceRoundOnce(current: Text, sentence: Text, maxChars: nat)
    requires maxChars >= 1
    ensures var round := SentenceRound(current, sentence, maxChars, 0);
      multiset(InkAll(round.emitted)) + multiset(Ink(round.current)) == multiset(Ink(current)) + multiset(Ink(sentence))
  {
    hide Windows, WindowRest, JoinSentence;
    var windows, rest := Windows(sentence, maxChars, 0), WindowRest(sentence, maxChars, 0);
    WindowsCutSentence(sentence, maxChars);
    assert multiset(Ink(sentence)) == multiset(InkAll(windows)) + multiset(Ink(rest));
    JoinSentenceInk(current, rest);
    InkAllOfConcat(windows, [current]);
    InkAllOfOne(current);
  }

  lemma {:induction false} PackSentencesOnce(sentences: seq<Text>, current: Text, maxChars: nat)
    requires maxChars >= 1
    ensures multiset(InkAll(PackSentences(sentences, current, maxChars, 0)))
         == multiset(Ink(current)) + multiset(InkAll(sentences))
    decreases |sentences|
  {
    hide SentenceRound;
    if sentences == [] {
      FlushInk(current);
    } else {
      var round := SentenceRound(current, sentences[0], maxChars, 0);
      var later := PackSentences(sentences[1..], round.current, maxChars, 0);
      SentenceRoundOnce(current, sentences[0], maxChars);
      PackSentencesOnce(sentences[1..], round.current, maxChars);
      InkAllOfConcat(round.emitted, later);
      OnceRound(InkAll(round.emitted), Ink(round.current), InkAll(later),
        Ink(current), Ink(sentences[0]), InkAll(sentences[1..]));
    }
  }

  // What one round of the paragraph loop emits and keeps, without overlap.
  lemma ParagraphRoundInk(current: Text, paragraph: Text, maxChars: nat)
    requires maxChars >= 1
    ensures var round := ParagraphRound(current, paragraph, maxChars, 0);
      InkAll(round.emitted) + Ink(round.current)
      == Ink(current)
        + if |paragraph| > maxChars then InkAll(LongParagraphPieces(paragraph, maxChars, 0)) else Ink(paragraph)
  {
    hide LongParagraphPieces;
    if |paragraph| > maxChars {
      FlushInk(current);
      InkAllOfConcat(Flush(current), LongParagraphPieces(paragraph, maxChars, 0));
    } else if |JoinParagraph(current, paragraph)| > maxChars {
      InkAllOfOne(current);
      assert Carry(current, paragraph, maxChars, 0) == paragraph;
    } else {
      JoinParagraphInk(current, paragraph);
    }
  }

  lemma ParagraphRoundOnce(current: Text, paragraph: Text, maxChars: nat)
    requires maxChars >= 1
    ensures var round := ParagraphRound(current, paragraph, maxChars, 0);
      multiset(InkAll(round.emitted)) + multiset(Ink(round.current))
      == multiset(Ink(current)) + multiset(Ink(paragraph))
  {
    hide PackSentences, Sentences, ParagraphRound;
    var round := ParagraphRound(current, paragraph, maxChars, 0);
    ParagraphRoundInk(current, paragraph, maxChars);
    SentencesKeepInk(paragraph);
    PackSentencesOnce(Sentences(paragraph), [], maxChars);
    assert multiset(InkAll(round.emitted) + Ink(round.current))
        == multiset(InkAll(round.emitted)) + multiset(Ink(round.current));
  }

  lemma {:induction false} PackParagraphsOnce(paragraphs: seq<Text>, current: Text, maxChars: nat)
    requires maxChars >= 1
    ensures multiset(InkAll(PackParagraphs(paragraphs, current, maxChars, 0)))
         == multiset(Ink(current)) + multiset(InkAll(paragraphs))
    decreases |paragraphs|
  {
    hide ParagraphRound;
    if paragraphs == [] {
      FlushInk(current);
    } else {
      var round := ParagraphRound(current, paragraphs[0], maxChars, 0);
      var later := PackParagraphs(paragraphs[1..], round.current, maxChars, 0);
      ParagraphRoundOnce(current, paragraphs[0], maxChars);
      PackParagraphsOnce(paragraphs[1..], round.current, maxChars);
      InkAllOfConcat(round.emitted, later);
      OnceRound(InkAll(round.emitted), Ink(round.current), InkAll(later),
        Ink(current), Ink(paragraphs[0]), InkAll(paragraphs[1..]));
    }
  }

  // With overlap 0 each non-whitespace source character appears exactly as
  // often as in the text.
  lemma {:induction false} PiecesOnce(text: Text, maxChars: nat)
    requires maxChars >= 1
    ensures multiset(InkAll(TextPieces(text, maxChars, 0))) == multiset(Ink(text))
  {
    if |text| <= maxChars {
      InkAllOfOne(text);
    } else {
      PackParagraphsOnce(Paragraphs(text), [], maxChars);
      ParagraphsKeepInk(text);
    }
  }

  // ----- When the pieces follow document order -----

  ghost predicate AllFit(sentences: seq<Text>, maxChars: nat) {
    forall k | 0 <= k < |sentences| :: |sentences[k]| <= maxChars
  }

  // Only the first sentence of a paragraph may need the sliding window.
  ghost predicate Tidy(paragraph: Text, maxChars: nat) {
    AllFit(Sentences(paragraph)[1..], maxChars)
  }

  ghost predicate TidyText(text: Text, maxChars: nat) {
    |text| <= maxChars
    || forall i | 0 <= i < |Paragraphs(text)| ::
         |Paragraphs(text)[i]| > maxChars ==> Tidy(Paragraphs(text)[i], maxChars)
  }

  lemma SentenceRoundInOrder(current: Text, sentence: Text, maxChars: nat)
    requires maxChars >= 1
    requires current == [] || |sentence| <= maxChars
    ensures var round := SentenceRound(current, sentence, maxChars, 0);
      InkAll(round.emitted) + Ink(round.current) == Ink(current) + Ink(sentence)
  {
    hide Strip;
    var windows, rest := Windows(sentence, maxChars, 0), WindowRest(sentence, maxChars, 0);
    WindowsCutSentence(sentence, maxChars);
    JoinSentenceInk(current, rest);
    if current != [] {
      assert windows == [] && rest == sentence;
      assert [] + [current] == [current];
      InkAllOfOne(current);
    }
  }

  lemma {:induction false} PackSentencesInOrder(sentences: seq<Text>, current: Text, maxChars: nat)
    requires maxChars >= 1
    requires sentences != [] ==> AllFit(sentences[1..], maxChars) && (current == [] || |sentences[0]| <= maxChars)
    ensures InkAll(PackSentences(sentences, current, maxChars, 0)) == Ink(current) + InkAll(sentences)
    decreases |sentences|
  {
    hide SentenceRound;
    if sentences == [] {
      FlushInk(current);
    } else {
      var round := SentenceRound(current, sentences[0], maxChars, 0);
      var rest := sentences[1..];
      var later := PackSentences(rest, round.current, maxChars, 0);
      SentenceRoundInOrder(current, sentences[0], maxChars);
      assert rest != [] ==> AllFit(rest[1..], maxChars) by {
        assert forall k | 1 <= k < |rest| :: rest[1..][k - 1] == rest[k];
      }
      PackSentencesInOrder(rest, round.current, maxChars);
      InkAllOfConcat(round.emitted, later);
      Associative(InkAll(round.emitted), Ink(round.current), InkAll(rest));
      Associative(Ink(current), Ink(sentences[0]), InkAll(rest));
    }
  }

  lemma {:induction false} PackParagraphsInOrder(paragraphs: seq<Text>, current: Text, maxChars: nat)
    requires maxChars >= 1
    requires forall i | 0 <= i < |paragraphs| :: |paragraphs[i]| > maxChars ==> Tidy(paragraphs[i], maxChars)
    ensures InkAll(PackParagraphs(paragraphs, current, maxChars, 0)) == Ink(current) + InkAll(paragraphs)
    decreases |paragraphs|
  {
    hide ParagraphRound, Tidy;
    if paragraphs == [] {
      FlushInk(current);
    } else {
      var round := ParagraphRound(current, paragraphs[0], maxChars, 0);
      var rest := paragraphs[1..];
      var later := PackParagraphs(rest, round.current, maxChars, 0);
      ParagraphRoundInOrder(current, paragraphs[0], maxChars);
      PackParagraphsInOrder(rest, round.current, maxChars);
      InkAllOfConcat(round.emitted, later);
      Associative(InkAll(round.emitted), Ink(round.current), InkAll(rest));
      Associative(Ink(current), Ink(paragraphs[0]), InkAll(rest));
    }
  }

  lemma ParagraphRoundInOrder(current: Text, paragraph: Text, maxChars: nat)
    requires maxChars >= 1
    requires |paragraph| > maxChars ==> Tidy(paragraph, maxChars)
    ensures var round := ParagraphRound(current, paragraph, maxChars, 0);
      InkAll(round.emitted) + Ink(round.current) == Ink(current) + Ink(paragraph)
  {
    hide LongParagraphPieces, Tidy, ParagraphRound;
    ParagraphRoundInk(current, paragraph, maxChars);
    if |paragraph| > maxChars {
      LongParagraphInOrder(paragraph, maxChars);
    }
  }

  lemma LongParagraphInOrder(paragraph: Text, maxChars: nat)
    requires maxChars >= 1 && Tidy(paragraph, maxChars)
    ensures InkAll(LongParagraphPieces(paragraph, maxChars, 0)) == Ink(paragraph)
  {
    hide Sentences, PackSentences;
    var sentences := Sentences(paragraph);
    SentencesKeepInk(paragraph);
    PackSentencesInOrder(sentences, [], maxChars);
  }

  // A window cut while `current` holds ink overtakes that ink.
  lemma WindowOvertakes(sentences: seq<Text>, current: Text, maxChars: nat)
    requires maxChars >= 1 && sentences != []
    requires |sentences[0]| > maxChars && !IsSpace(sentences[0][0].ch)
    requires Ink(current) != []
    requires Increasing(Ink(current) + InkAll(sentences))
    ensures !Increasing(InkAll(PackSentences(sentences, current, maxChars, 0)))
  {
    hide SentenceRound, PackSentences;
    var s := sentences[0];
    var a, b := Ink(current)[0], s[0];
    var packed := InkAll(PackSentences(sentences, current, maxChars, 0));
    FirstInkOfPack(sentences, current, maxChars);
    assert Ink(s)[0] == b;
    IncreasingConcat(Ink(current), InkAll(sentences));
    assert InkAll(sentences)[0] == b;
    assert a.src < b.src;
    PackSentencesCover(sentences, current, maxChars, 0);
    assert a in Ink(current) + InkAll(sentences) by { assert (Ink(current) + InkAll(sentences))[0] == a; }
    var i :| 0 <= i < |packed| && packed[i] == a;
    assert packed[0].src > packed[i].src;
  }

  lemma FirstInkOfPack(sentences: seq<Text>, current: Text, maxChars: nat)
    requires maxChars >= 1 && sentences != []
    requires |sentences[0]| > maxChars && !IsSpace(sentences[0][0].ch)
    ensures var packed := InkAll(PackSentences(sentences, current, maxChars, 0));
      packed != [] && packed[0] == sentences[0][0]
  {
    hide Strip, WindowRest;
    var s := sentences[0];
    var round := SentenceRound(current, s, maxChars, 0);
    var first := s[..maxChars];
    assert Windows(s, maxChars, 0)[0] == first;
    assert round.emitted[0] == first;
    assert PackSentences(sentences, current, maxChars, 0)[0] == first;
    assert Ink(first)[0] == s[0];
  }

  // What the sentence before leaves in `current` ends in ink.
  lemma RoundLeavesInk(current: Text, sentence: Text, maxChars: nat, overlap: nat)
    requires maxChars >= 1
    requires sentence != [] && !IsSpace(sentence[|sentence| - 1].ch)
    ensures Ink(SentenceRound(current, sentence, maxChars, overlap).current) != []
  {
    hide Windows, WindowRest, JoinSentence;
    var rest := WindowRest(sentence, maxChars, overlap);
    var n := RestIsSuffix(sentence, maxChars, overlap);
    assert rest[|rest| - 1] == sentence[|sentence| - 1];
    InkOfBlank(rest);
    JoinSentenceInk(current, rest);
  }

  lemma {:induction false} PackSentencesOutOfOrder(sentences: seq<Text>, current: Text, maxChars: nat, k: nat)
    requires maxChars >= 1 && k < |sentences|
    requires |sentences[k]| > maxChars && !IsSpace(sentences[k][0].ch)
    requires forall j | 0 <= j < k :: sentences[j] != [] && !IsSpace(sentences[j][|sentences[j]| - 1].ch)
    requires k == 0 ==> Ink(current) != []
    requires Increasing(Ink(current) + InkAll(sentences))
    ensures !Increasing(InkAll(PackSentences(sentences, current, maxChars, 0)))
    decreases k
  {
    hide SentenceRound;
    if k == 0 {
      WindowOvertakes(sentences, current, maxChars);
    } else {
      var rest := sentences[1..];
      var round := SentenceRound(current, sentences[0], maxChars, 0);
      var later := PackSentences(rest, round.current, maxChars, 0);
      RoundLeavesInk(current, sentences[0], maxChars, 0);
      Associative(Ink(current), Ink(sentences[0]), InkAll(rest));
      SentenceRoundIncreasing(current, sentences[0], InkAll(rest), maxChars, 0);
      PackSentencesOutOfOrder(rest, round.current, maxChars, k - 1);
      InkAllOfConcat(round.emitted, later);
      IncreasingConcat(InkAll(round.emitted), InkAll(later));
    }
  }

  lemma UntidyParagraph(paragraph: Text, maxChars: nat)
    requires maxChars >= 1 && !Tidy(paragraph, maxChars)
    requires Increasing(Ink(paragraph))
    ensures !Increasing(InkAll(LongParagraphPieces(paragraph, maxChars, 0)))
  {
    var sentences := Sentences(paragraph);
    var k :| 0 <= k < |sentences[1..]| && |sentences[1..][k]| > maxChars;
    SentenceShape([], paragraph);
    SentencesKeepInk(paragraph);
    assert sentences[k + 1] == sentences[1..][k];
    PackSentencesOutOfOrder(sentences, [], maxChars, k + 1);
  }

  lemma {:induction false} PackParagraphsOutOfOrder(paragraphs: seq<Text>, current: Text, maxChars: nat, i: nat)
    requires maxChars >= 1 && i < |paragraphs|
    requires |paragraphs[i]| > maxChars && !Tidy(paragraphs[i], maxChars)
    requires Increasing(Ink(current) + InkAll(paragraphs))
    ensures !Increasing(InkAll(PackParagraphs(paragraphs, current, maxChars, 0)))
    decreases i
  {
    hide ParagraphRound, Tidy, LongParagraphPieces, PackParagraphs, Ink, Increasing;
    assert InkAll(paragraphs) == Ink(paragraphs[0]) + InkAll(paragraphs[1..]);
    hide InkAll;
    var p, rest := paragraphs[0], paragraphs[1..];
    var round := ParagraphRound(current, p, maxChars, 0);
    var later := PackParagraphs(rest, round.current, maxChars, 0);
    Associative(Ink(current), Ink(p), InkAll(rest));
    PackParagraphsInk(paragraphs, current, maxChars);
    IncreasingConcat(InkAll(round.emitted), InkAll(later));
    if i == 0 {
      IncreasingParts(Ink(current), Ink(p), InkAll(rest));
      UntidyParagraph(p, maxChars);
      OversizedRoundEmits(current, p, maxChars);
    } else {
      ParagraphRoundIncreasing(current, p, InkAll(rest), maxChars, 0);
      PackParagraphsOutOfOrder(rest, round.current, maxChars, i - 1);
    }
  }

  lemma PackParagraphsInk(paragraphs: seq<Text>, current: Text, maxChars: nat)
    requires maxChars >= 1 && paragraphs != []
    ensures var round := ParagraphRound(current, paragraphs[0], maxChars, 0);
      InkAll(PackParagraphs(paragraphs, current, maxChars, 0))
      == InkAll(round.emitted) + InkAll(PackParagraphs(paragraphs[1..], round.current, maxChars, 0))
  {
    hide ParagraphRound;
    var round := ParagraphRound(current, paragraphs[0], maxChars, 0);
    InkAllOfConcat(round.emitted, PackParagraphs(paragraphs[1..], round.current, maxChars, 0));
  }

  lemma OversizedRoundEmits(current: Text, paragraph: Text, maxChars: nat)
    requires maxChars >= 1 && |paragraph| > maxChars
    requires !Increasing(InkAll(LongParagraphPieces(paragraph, maxChars, 0)))
    ensures !Increasing(InkAll(ParagraphRound(current, paragraph, maxChars, 0).emitted))
  {
    hide LongParagraphPieces;
    var pieces := LongParagraphPieces(paragraph, maxChars, 0);
    InkAllOfConcat(Flush(current), pieces);
    IncreasingConcat(InkAll(Flush(current)), InkAll(pieces));
  }

  // With overlap 0 the pieces, read one after the other, are the text with
  // its whitespace erased, exactly when no sentence but the first of an
  // oversized paragraph is longer than maxChars.
  lemma {:induction false} OrderKeptIffTidy(text: Text, maxChars: nat)
    requires maxChars >= 1
    requires Increasing(Ink(text))
    ensures InkAll(TextPieces(text, maxChars, 0)) == Ink(text) <==> TidyText(text, maxChars)
  {
    hide Tidy;
    if |text| <= maxChars {
      InkAllOfOne(text);
    } else {
      var paragraphs := Paragraphs(text);
      ParagraphsKeepInk(text);
      if TidyText(text, maxChars) {
        PackParagraphsInOrder(paragraphs, [], maxChars);
      } else {
        var i :| 0 <= i < |paragraphs| && |paragraphs[i]| > maxChars && !Tidy(paragraphs[i], maxChars);
        PackParagraphsOutOfOrder(paragraphs, [], maxChars, i);
      }
    }
  }
}
