// Hierarchical chunking (app/ingestion/chunking.py): paragraphs are packed
// greedily, oversized paragraphs fall back to sentences, oversized sentences
// to a sliding window.
//
// Each loop of the source is a method here, proved against the recursive
// function above it. What the functions guarantee is proved in modules
// SlidingWindow, Conservation, DocumentOrder and GreedyPacking.

module Chunking {
  import opened Options
  import opened Texts
  import opened Sections

  const CHUNK_MAX_CHARS: nat := 1500
  const CHUNK_OVERLAP_CHARS: nat := 150

  datatype Chunk = Chunk(index: nat, text: Text, headingPath: string, page: Option<int>)

  // ----- Cutting a text into paragraphs and a paragraph into sentences -----

  function Paragraphs(text: Text): seq<Text> {
    var paragraphs := StripAll(NonBlank(SplitOn(ParagraphBreak, [], text)));
    if |paragraphs| == 1 then NonBlank(SplitOn(LineBreak, [], text)) else paragraphs
  }

  function Sentences(paragraph: Text): seq<Text> {
    SplitOn(SentenceEnd, [], paragraph)
  }

  // ----- The sliding window over one oversized sentence -----

  function Step(maxChars: nat, overlap: nat): (step: nat)
    requires maxChars >= 1
    ensures 1 <= step <= maxChars
  {
    if maxChars > overlap then maxChars - overlap else maxChars
  }

  function Windows(sentence: Text, maxChars: nat, overlap: nat): seq<Text>
    requires maxChars >= 1
    decreases |sentence|
  {
    if |sentence| <= maxChars then []
    else [sentence[..maxChars]] + Windows(sentence[Step(maxChars, overlap)..], maxChars, overlap)
  }

  function WindowRest(sentence: Text, maxChars: nat, overlap: nat): (rest: Text)
    requires maxChars >= 1
    ensures |rest| <= maxChars
    ensures sentence != [] ==> rest != []
    decreases |sentence|
  {
    if |sentence| <= maxChars then sentence
    else WindowRest(sentence[Step(maxChars, overlap)..], maxChars, overlap)
  }

  // ----- Packing the sentences of an oversized paragraph -----

  // One round of a packing loop: the pieces it appends and the new `current`.
  datatype Round = Round(emitted: seq<Text>, current: Text)

  function Flush(current: Text): seq<Text> {
    if current == [] then [] else [current]
  }

  function JoinSentence(current: Text, sentence: Text): Text {
    if current == [] then sentence else Strip(current + [SPACE] + sentence)
  }

  function SentenceRound(current: Text, sentence: Text, maxChars: nat, overlap: nat): Round
    requires maxChars >= 1
  {
    var windows := Windows(sentence, maxChars, overlap);
    var rest := WindowRest(sentence, maxChars, overlap);
    var candidate := JoinSentence(current, rest);
    if |candidate| > maxChars then Round(windows + [current], rest) else Round(windows, candidate)
  }

  function PackSentences(sentences: seq<Text>, current: Text, maxChars: nat, overlap: nat): seq<Text>
    requires maxChars >= 1
  {
    if sentences == [] then Flush(current)
    else
      var round := SentenceRound(current, sentences[0], maxChars, overlap);
      round.emitted + PackSentences(sentences[1..], round.current, maxChars, overlap)
  }

  function LongParagraphPieces(paragraph: Text, maxChars: nat, overlap: nat): seq<Text>
    requires maxChars >= 1
  {
    PackSentences(Sentences(paragraph), [], maxChars, overlap)
  }

  method SplitLongParagraph(paragraph: Text, maxChars: nat, overlap: nat) returns (pieces: seq<Text>)
    requires maxChars >= 1
    ensures pieces == LongParagraphPieces(paragraph, maxChars, overlap)
  {
    hide Sentences, Strip;
    var sentences := Sentences(paragraph);
    pieces := [];
    var current: Text := [];
    ghost var goal := LongParagraphPieces(paragraph, maxChars, overlap);
    for i := 0 to |sentences|
      invariant pieces + PackSentences(sentences[i..], current, maxChars, overlap) == goal
    {
      var sentence := sentences[i];
      ghost var todo, before, windows := sentences[i..], pieces, Windows(sentence, maxChars, overlap);
      ghost var round := SentenceRound(current, sentence, maxChars, overlap);
      assert todo[0] == sentence && todo[1..] == sentences[i + 1..];
      Absorb(before, PackSentences(todo, current, maxChars, overlap), round.emitted,
        PackSentences(sentences[i + 1..], round.current, maxChars, overlap), goal);
      while |sentence| > maxChars
        invariant WindowRest(sentence, maxChars, overlap) == WindowRest(sentences[i], maxChars, overlap)
        invariant pieces + Windows(sentence, maxChars, overlap) == before + windows
        decreases |sentence|
      {
        var step := if maxChars > overlap then maxChars - overlap else maxChars;
        Absorb(pieces, Windows(sentence, maxChars, overlap), [sentence[..maxChars]],
          Windows(sentence[step..], maxChars, overlap), before + windows);
        pieces := pieces + [sentence[..maxChars]];
        sentence := sentence[step..];
      }
      assert pieces == before + windows;
      var candidate := if current != [] then Strip(current + [SPACE] + sentence) else sentence;
      if |candidate| > maxChars {
        Associative(before, windows, [current]);
        pieces := pieces + [current];
        current := sentence;
      } else {
        current := candidate;
      }
    }
    assert sentences[|sentences|..] == [];
    if current != [] {
      pieces := pieces + [current];
    }
  }

  // ----- Packing the paragraphs of a text -----

  function JoinParagraph(current: Text, paragraph: Text): Text {
    if current == [] then paragraph else current + [NEWLINE] + paragraph
  }

  // The last `overlap` characters of a piece, or all of it if it is shorter.
  function Tail(piece: Text, overlap: nat): (tail: Text)
    ensures |tail| == (if overlap <= |piece| then overlap else |piece|)
    ensures tail == piece[|piece| - |tail|..]
  {
    if overlap <= |piece| then piece[|piece| - overlap..] else piece
  }

  // What the next piece starts with after `piece` was closed by `paragraph`.
  function Carry(piece: Text, paragraph: Text, maxChars: nat, overlap: nat): Text {
    var merged := JoinParagraph(Tail(piece, overlap), paragraph);
    if |merged| <= maxChars then merged else paragraph
  }

  function ParagraphRound(current: Text, paragraph: Text, maxChars: nat, overlap: nat): Round
    requires maxChars >= 1
  {
    var candidate := JoinParagraph(current, paragraph);
    if |paragraph| > maxChars then
      Round(Flush(current) + LongParagraphPieces(paragraph, maxChars, overlap), [])
    else if |candidate| > maxChars then
      Round([current], Carry(current, paragraph, maxChars, overlap))
    else
      Round([], candidate)
  }

  function PackParagraphs(paragraphs: seq<Text>, current: Text, maxChars: nat, overlap: nat): seq<Text>
    requires maxChars >= 1
  {
    if paragraphs == [] then Flush(current)
    else
      var round := ParagraphRound(current, paragraphs[0], maxChars, overlap);
      round.emitted + PackParagraphs(paragraphs[1..], round.current, maxChars, overlap)
  }

  function TextPieces(text: Text, maxChars: nat, overlap: nat): seq<Text>
    requires maxChars >= 1
  {
    if |text| <= maxChars then [text]
    else PackParagraphs(Paragraphs(text), [], maxChars, overlap)
  }

  method SplitText(text: Text, maxChars: nat, overlap: nat) returns (pieces: seq<Text>)
    requires maxChars >= 1
    ensures pieces == TextPieces(text, maxChars, overlap)
  {
    hide PackParagraphs, LongParagraphPieces, SplitOn, NonBlank, StripAll;
    if |text| <= maxChars {
      return [text];
    }
    var paragraphs := StripAll(NonBlank(SplitOn(ParagraphBreak, [], text)));
    if |paragraphs| == 1 {
      paragraphs := NonBlank(SplitOn(LineBreak, [], text));
    }
    pieces := [];
    var current: Text := [];
    ghost var goal := TextPieces(text, maxChars, overlap);
    assert goal == PackParagraphs(paragraphs, [], maxChars, overlap);
    for i := 0 to |paragraphs|
      invariant pieces + PackParagraphs(paragraphs[i..], current, maxChars, overlap) == goal
    {
      var paragraph := paragraphs[i];
      ParagraphRoundStep(paragraphs, i, pieces, current, maxChars, overlap, goal);
      var candidate := if current != [] then current + [NEWLINE] + paragraph else paragraph;
      assert candidate == JoinParagraph(current, paragraph);
      hide JoinParagraph;
      if |paragraph| > maxChars {
        ghost var before, closed := pieces, current;
        if current != [] {
          pieces := pieces + [current];
          current := [];
        }
        assert pieces == before + Flush(closed) && current == [];
        hide Flush;
        var windows := SplitLongParagraph(paragraph, maxChars, overlap);
        pieces := pieces + windows;
        continue;
      }
      hide Flush;
      if |candidate| > maxChars {
        pieces := pieces + [current];
        var tail := if overlap != 0 then Tail(current, overlap) else [];
        var merged := if tail != [] then tail + [NEWLINE] + paragraph else paragraph;
        CarryIs(current, paragraph, maxChars, overlap, tail, merged);
        hide Carry;
        current := if |merged| <= maxChars then merged else paragraph;
      } else {
        current := candidate;
      }
    }
    assert paragraphs[|paragraphs|..] == [];
    PackNothing(current, maxChars, overlap);
    if current != [] {
      pieces := pieces + [current];
    }
  }

  lemma CarryIs(piece: Text, paragraph: Text, maxChars: nat, overlap: nat, tail: Text, merged: Text)
    requires tail == if overlap != 0 then Tail(piece, overlap) else []
    requires merged == if tail != [] then tail + [NEWLINE] + paragraph else paragraph
    ensures Carry(piece, paragraph, maxChars, overlap) == if |merged| <= maxChars then merged else paragraph
  {
  }

  lemma PackNothing(current: Text, maxChars: nat, overlap: nat)
    requires maxChars >= 1
    ensures PackParagraphs([], current, maxChars, overlap) == Flush(current)
  {
  }

  // What one round of the paragraph loop appends, and what it leaves to do.
  lemma ParagraphRoundStep(
      paragraphs: seq<Text>, i: nat, done: seq<Text>, current: Text, maxChars: nat, overlap: nat, goal: seq<Text>)
    requires maxChars >= 1 && i < |paragraphs|
    requires done + PackParagraphs(paragraphs[i..], current, maxChars, overlap) == goal
    ensures var p, rest := paragraphs[i], paragraphs[i + 1..];
      if |p| > maxChars then
        done + Flush(current) + LongParagraphPieces(p, maxChars, overlap)
          + PackParagraphs(rest, [], maxChars, overlap) == goal
      else if |JoinParagraph(current, p)| > maxChars then
        done + [current] + PackParagraphs(rest, Carry(current, p, maxChars, overlap), maxChars, overlap) == goal
      else
        done + PackParagraphs(rest, JoinParagraph(current, p), maxChars, overlap) == goal
  {
    hide LongParagraphPieces, Carry;
    var todo := paragraphs[i..];
    assert todo[0] == paragraphs[i] && todo[1..] == paragraphs[i + 1..];
    var round := ParagraphRound(current, paragraphs[i], maxChars, overlap);
    Absorb(done, PackParagraphs(todo, current, maxChars, overlap), round.emitted,
      PackParagraphs(paragraphs[i + 1..], round.current, maxChars, overlap), goal);
    Associative(done, Flush(current), LongParagraphPieces(paragraphs[i], maxChars, overlap));
    assert done + [] == done;
  }

  // ----- Chunks of a whole document -----

  function Breadcrumb(titles: seq<string>): string {
    if titles == [] then ""
    else if |titles| == 1 then titles[0]
    else titles[0] + " > " + Breadcrumb(titles[1..])
  }

  // The titles in order, with " > " between each two and nothing around them.
  lemma {:induction false} BreadcrumbConcat(a: seq<string>, b: seq<string>, title: string)
    ensures Breadcrumb([]) == "" && Breadcrumb([title]) == title
    ensures a != [] && b != [] ==> Breadcrumb(a + b) == Breadcrumb(a) + " > " + Breadcrumb(b)
  {
    if |a| == 1 {
      assert (a + b)[0] == a[0] && (a + b)[1..] == b;
    } else if a != [] {
      BreadcrumbConcat(a[1..], b, title);
      assert (a + b)[0] == a[0] && (a + b)[1..] == a[1..] + b;
      Associative(a[0] + " > ", Breadcrumb(a[1..]), " > " + Breadcrumb(b));
      Associative(Breadcrumb(a[1..]), " > ", Breadcrumb(b));
      Associative(Breadcrumb(a), " > ", Breadcrumb(b));
    }
  }

  // The chunks of one section, numbered from `first`.
  function Numbered(first: nat, pieces: seq<Text>, headingPath: string, page: Option<int>): (chunks: seq<Chunk>)
    ensures |chunks| == |pieces|
    decreases |pieces|
  {
    if pieces == [] then []
    else [Chunk(first, pieces[0], headingPath, page)] + Numbered(first + 1, pieces[1..], headingPath, page)
  }

  lemma {:induction false} NumberedAt(first: nat, pieces: seq<Text>, headingPath: string, page: Option<int>, i: nat)
    requires i < |pieces|
    ensures Numbered(first, pieces, headingPath, page)[i] == Chunk(first + i, pieces[i], headingPath, page)
    decreases i
  {
    if i > 0 {
      NumberedAt(first + 1, pieces[1..], headingPath, page, i - 1);
    }
  }

  function SectionChunks(first: nat, section: Section, maxChars: nat, overlap: nat): seq<Chunk>
    requires maxChars >= 1
  {
    Numbered(first, TextPieces(section.text, maxChars, overlap), Breadcrumb(section.headingPath), section.page)
  }

  function ChunksFrom(first: nat, sections: seq<Section>, maxChars: nat, overlap: nat): seq<Chunk>
    requires maxChars >= 1
    decreases |sections|
  {
    if sections == [] then []
    else
      var chunks := SectionChunks(first, sections[0], maxChars, overlap);
      chunks + ChunksFrom(first + |chunks|, sections[1..], maxChars, overlap)
  }

  // A missing or zero size means the configured one; only a missing overlap does.
  function EffectiveMax(maxChars: Option<nat>): (n: nat)
    ensures n >= 1
  {
    if maxChars.Some? && maxChars.value != 0 then maxChars.value else CHUNK_MAX_CHARS
  }

  function EffectiveOverlap(overlap: Option<nat>): nat {
    if overlap.Some? then overlap.value else CHUNK_OVERLAP_CHARS
  }

  method ChunkSections(sections: seq<Section>, maxChars: Option<nat>, overlap: Option<nat>)
    returns (chunks: seq<Chunk>)
    ensures chunks == ChunksFrom(0, sections, EffectiveMax(maxChars), EffectiveOverlap(overlap))
  {
    hide TextPieces;
    var m, o := EffectiveMax(maxChars), EffectiveOverlap(overlap);
    chunks := [];
    ghost var goal := ChunksFrom(0, sections, m, o);
    for s := 0 to |sections|
      invariant chunks + ChunksFrom(|chunks|, sections[s..], m, o) == goal
    {
      var section := sections[s];
      ghost var first, before := |chunks|, chunks;
      var breadcrumb := Breadcrumb(section.headingPath);
      var pieces := SplitText(section.text, m, o);
      ghost var added := SectionChunks(first, section, m, o);
      for i := 0 to |pieces|
        invariant chunks + Numbered(|chunks|, pieces[i..], breadcrumb, section.page) == before + added
      {
        var chunk := Chunk(|chunks|, pieces[i], breadcrumb, section.page);
        assert pieces[i..][0] == pieces[i] && pieces[i..][1..] == pieces[i + 1..];
        Absorb(chunks, Numbered(|chunks|, pieces[i..], breadcrumb, section.page), [chunk],
          Numbered(|chunks| + 1, pieces[i + 1..], breadcrumb, section.page), before + added);
        chunks := chunks + [chunk];
      }
      assert chunks == before + added;
      SectionStep(sections, s, before, m, o, goal);
    }
    assert sections[|sections|..] == [];
  }

  // What one round of the section loop leaves to do.
  lemma SectionStep(sections: seq<Section>, s: nat, done: seq<Chunk>, m: nat, o: nat, goal: seq<Chunk>)
    requires m >= 1 && s < |sections|
    requires done + ChunksFrom(|done|, sections[s..], m, o) == goal
    ensures var added := SectionChunks(|done|, sections[s], m, o);
      done + added + ChunksFrom(|done| + |added|, sections[s + 1..], m, o) == goal
  {
    hide SectionChunks, TextPieces;
    var todo := sections[s..];
    assert todo[0] == sections[s] && todo[1..] == sections[s + 1..];
    var added := SectionChunks(|done|, sections[s], m, o);
    Absorb(done, ChunksFrom(|done|, todo, m, o), added, ChunksFrom(|done| + |added|, sections[s + 1..], m, o), goal);
  }

  function EmbeddingText(chunk: Chunk): string {
    if chunk.headingPath != "" then chunk.headingPath + "\n\n" + Chars(chunk.text) else Chars(chunk.text)
  }
}
