// From the event stream of a document to its chunks: the section builder
// (app/ingestion/parsing.py:53-79) followed by the chunker
// (app/ingestion/chunking.py:39-51).

module Pipeline {
  import opened Options
  import opened Texts
  import opened Sections
  import opened Chunking
  import opened Conservation
  import opened DocumentOrder

  // The chunks of a document whose parser made these calls and then build().
  function DocumentChunks(events: seq<Event>, maxChars: nat, overlap: nat): seq<Chunk>
    requires maxChars >= 1
  {
    ChunksFrom(0, SectionsOf(events + [Cut]), maxChars, overlap)
  }

  // ----- Every body line reaches a section under its own headings -----

  ghost predicate Holds(section: Section, g: Glyph, path: seq<string>) {
    g in Ink(section.text) && section.headingPath == path
  }

  ghost predicate SomeHolds(sections: seq<Section>, g: Glyph, path: seq<string>) {
    exists k | 0 <= k < |sections| :: Holds(sections[k], g, path)
  }

  lemma SomeHoldsConcat(a: seq<Section>, b: seq<Section>, g: Glyph, path: seq<string>)
    requires SomeHolds(a, g, path) || SomeHolds(b, g, path)
    ensures SomeHolds(a + b, g, path)
  {
    if SomeHolds(a, g, path) {
      var k :| 0 <= k < |a| && Holds(a[k], g, path);
      assert (a + b)[k] == a[k];
    } else {
      var k :| 0 <= k < |b| && Holds(b[k], g, path);
      assert (a + b)[|a| + k] == b[k];
    }
  }

  lemma FlushedHolds(events: seq<Event>, g: Glyph)
    requires g in InkAll(Pending(events))
    ensures SomeHolds(Flushed(events), g, Titles(Chain(events)))
  {
    hide Pending, Chain, JoinLines, FirstPage;
    var joined := JoinLines(Pending(events));
    JoinLinesInk(Pending(events));
    StripFacts(joined);
    assert Holds(Flushed(events)[0], g, Titles(Chain(events)));
  }

  // A line is still pending under the same headings, or its section is out.
  lemma {:induction false} LineIsKept(events: seq<Event>, e: nat, g: Glyph)
    requires e < |events| && events[e].Body? && g in Ink(events[e].text)
    ensures
      || (g in InkAll(Pending(events)) && Chain(events) == Chain(events[..e]))
      || SomeHolds(SectionsOf(events), g, Titles(Chain(events[..e])))
    decreases |events|
  {
    hide Chain, Pending, SectionsOf, FirstPage, Flushed;
    var init, last := events[..|events| - 1], events[|events| - 1];
    assert events == init + [last];
    Extended(init, last);
    if last.Body? {
      InkAllOfConcat(Pending(init), [last.text]);
      InkAllOfOne(last.text);
    }
    if e == |init| {
      assert events[..e] == init;
    } else {
      assert init[..e] == events[..e];
      LineIsKept(init, e, g);
      var path := Titles(Chain(events[..e]));
      if SomeHolds(SectionsOf(init), g, path) {
        SomeHoldsConcat(SectionsOf(init), if last.Body? then [] else Flushed(init), g, path);
      } else if !last.Body? {
        FlushedHolds(init, g);
        SomeHoldsConcat(SectionsOf(init), Flushed(init), g, path);
      }
    }
  }

  // ----- Every section is one run of body lines -----

  function BodyTexts(events: seq<Event>): seq<Text> {
    if events == [] then []
    else BodyTexts(events[..|events| - 1]) + (if events[|events| - 1].Body? then [events[|events| - 1].text] else [])
  }

  // events[i..j] is a maximal run of body lines.
  ghost predicate IsRun(events: seq<Event>, i: nat, j: nat) {
    && i < j <= |events|
    && (forall m | i <= m < j :: events[m].Body?)
    && (i == 0 || !events[i - 1].Body?)
    && (j == |events| || !events[j].Body?)
  }

  // The lines waiting at the end of a history are those of events[i..].
  ghost predicate OpenRun(events: seq<Event>, i: nat) {
    && i <= |events|
    && (forall m | i <= m < |events| :: events[m].Body?)
    && (i == 0 || !events[i - 1].Body?)
    && Pending(events) == BodyTexts(events[i..])
    && Chain(events) == Chain(events[..i])
    && (i < |events| ==> FirstPage(events) == events[i].page)
    && (Pending(events) == [] <==> i == |events|)
  }

  lemma {:induction false} PendingIsRun(events: seq<Event>) returns (i: nat)
    ensures OpenRun(events, i)
    decreases |events|
  {
    hide Chain;
    if events == [] || !events[|events| - 1].Body? {
      i := |events|;
      assert events[..i] == events && events[i..] == [];
    } else {
      i := PendingIsRun(events[..|events| - 1]);
      RunGrows(events, i);
    }
  }

  lemma RunText(events: seq<Event>, i: nat)
    requires i < |events| && events[|events| - 1].Body?
    ensures BodyTexts(events[i..]) == BodyTexts(events[..|events| - 1][i..]) + [events[|events| - 1].text]
  {
    var run := events[i..];
    assert run[|run| - 1] == events[|events| - 1] && run[..|run| - 1] == events[..|events| - 1][i..];
  }

  lemma RunGrows(events: seq<Event>, i: nat)
    requires events != [] && events[|events| - 1].Body? && OpenRun(events[..|events| - 1], i)
    ensures OpenRun(events, i)
  {
    hide Chain, Pending, FirstPage;
    var init, last := events[..|events| - 1], events[|events| - 1];
    assert events == init + [last];
    Extended(init, last);
    RunText(events, i);
    hide BodyTexts;
    assert init[..i] == events[..i];
    assert forall m | 0 <= m < |init| :: init[m] == events[m];
  }

  // Where a section comes from: a maximal run of body lines, under the
  // headings enclosing it, with the page of its first line.
  ghost predicate ComesFrom(section: Section, events: seq<Event>, i: nat, j: nat) {
    && IsRun(events, i, j)
    && Ink(section.text) == InkAll(BodyTexts(events[i..j]))
    && section.headingPath == Titles(Chain(events[..i]))
    && section.page == events[i].page
  }

  lemma ComesFromLonger(section: Section, events: seq<Event>, e: Event, i: nat, j: nat)
    requires ComesFrom(section, events, i, j)
    requires j < |events| || !e.Body?
    ensures ComesFrom(section, events + [e], i, j)
  {
    var all := events + [e];
    assert all[i..j] == events[i..j] && all[..i] == events[..i];
    assert forall m | 0 <= m < |events| :: all[m] == events[m];
  }

  lemma FlushedComesFrom(events: seq<Event>) returns (i: nat)
    requires Flushed(events) != []
    ensures ComesFrom(Flushed(events)[0], events, i, |events|)
  {
    hide Chain, Pending, FirstPage;
    i := PendingIsRun(events);
    NothingPending(events);
    var joined := JoinLines(Pending(events));
    JoinLinesInk(Pending(events));
    StripFacts(joined);
    assert events[i..|events|] == events[i..];
  }

  lemma {:induction false} SectionComesFrom(events: seq<Event>, k: nat) returns (i: nat, j: nat)
    requires k < |SectionsOf(events)|
    ensures ComesFrom(SectionsOf(events)[k], events, i, j) && j < |events|
    decreases |events|
  {
    hide Flushed, Chain, Pending, FirstPage, ComesFrom;
    var init, last := events[..|events| - 1], events[|events| - 1];
    assert events == init + [last];
    if k < |SectionsOf(init)| {
      i, j := SectionComesFrom(init, k);
      ComesFromLonger(SectionsOf(init)[k], init, last, i, j);
    } else {
      assert |Flushed(init)| <= 1 by { FlushedIsSmall(init); }
      i := FlushedComesFrom(init);
      j := |init|;
      ComesFromLonger(Flushed(init)[0], init, last, i, j);
    }
  }

  lemma FlushedIsSmall(events: seq<Event>)
    ensures |Flushed(events)| <= 1
  {
  }

  // ----- Every chunk is a piece of one section -----

  ghost predicate IsPieceOf(chunk: Chunk, index: nat, section: Section, maxChars: nat, overlap: nat, i: nat)
    requires maxChars >= 1
  {
    && i < |TextPieces(section.text, maxChars, overlap)|
    && chunk == Chunk(
         index, TextPieces(section.text, maxChars, overlap)[i], Breadcrumb(section.headingPath), section.page)
  }

  lemma SectionChunkAt(first: nat, section: Section, maxChars: nat, overlap: nat, i: nat)
    requires maxChars >= 1
    ensures |SectionChunks(first, section, maxChars, overlap)| == |TextPieces(section.text, maxChars, overlap)|
    ensures i < |TextPieces(section.text, maxChars, overlap)| ==>
      IsPieceOf(SectionChunks(first, section, maxChars, overlap)[i], first + i, section, maxChars, overlap, i)
  {
    hide TextPieces, Breadcrumb;
    var pieces := TextPieces(section.text, maxChars, overlap);
    if i < |pieces| {
      NumberedAt(first, pieces, Breadcrumb(section.headingPath), section.page, i);
    }
  }

  lemma ChunksSplit(first: nat, sections: seq<Section>, maxChars: nat, overlap: nat)
    requires maxChars >= 1
    ensures sections == [] ==> ChunksFrom(first, sections, maxChars, overlap) == []
    ensures sections != [] ==>
      var chunks := SectionChunks(first, sections[0], maxChars, overlap);
      ChunksFrom(first, sections, maxChars, overlap)
      == chunks + ChunksFrom(first + |chunks|, sections[1..], maxChars, overlap)
  {
    hide SectionChunks;
  }

  lemma {:induction false} ChunkOrigin(first: nat, sections: seq<Section>, maxChars: nat, overlap: nat, k: nat)
    returns (s: nat, i: nat)
    requires maxChars >= 1
    requires k < |ChunksFrom(first, sections, maxChars, overlap)|
    ensures s < |sections|
    ensures IsPieceOf(ChunksFrom(first, sections, maxChars, overlap)[k], first + k, sections[s], maxChars, overlap, i)
    decreases |sections|
  {
    hide SectionChunks, IsPieceOf, TextPieces, ChunksFrom;
    ChunksSplit(first, sections, maxChars, overlap);
    var chunks := SectionChunks(first, sections[0], maxChars, overlap);
    var later := ChunksFrom(first + |chunks|, sections[1..], maxChars, overlap);
    SectionChunkAt(first, sections[0], maxChars, overlap, k);
    if k < |chunks| {
      s, i := 0, k;
    } else {
      var m, t := k - |chunks|, 0;
      assert (chunks + later)[k] == later[m] && first + |chunks| + m == first + k;
      t, i := ChunkOrigin(first + |chunks|, sections[1..], maxChars, overlap, m);
      assert sections[1..][t] == sections[t + 1];
      s := t + 1;
    }
  }

  lemma {:induction false} PieceIsChunk(
      first: nat, sections: seq<Section>, maxChars: nat, overlap: nat, s: nat, i: nat) returns (k: nat)
    requires maxChars >= 1 && s < |sections|
    requires i < |TextPieces(sections[s].text, maxChars, overlap)|
    ensures k < |ChunksFrom(first, sections, maxChars, overlap)|
    ensures IsPieceOf(ChunksFrom(first, sections, maxChars, overlap)[k], first + k, sections[s], maxChars, overlap, i)
    decreases |sections|
  {
    hide SectionChunks, IsPieceOf, TextPieces, ChunksFrom;
    ChunksSplit(first, sections, maxChars, overlap);
    var chunks := SectionChunks(first, sections[0], maxChars, overlap);
    var later := ChunksFrom(first + |chunks|, sections[1..], maxChars, overlap);
    SectionChunkAt(first, sections[0], maxChars, overlap, i);
    if s == 0 {
      k := i;
    } else {
      assert sections[1..][s - 1] == sections[s];
      var m := PieceIsChunk(first + |chunks|, sections[1..], maxChars, overlap, s - 1, i);
      k := |chunks| + m;
      assert (chunks + later)[k] == later[m] && first + |chunks| + m == first + k;
    }
  }

  lemma {:induction false} InkAllMember(pieces: seq<Text>, g: Glyph)
    ensures g in InkAll(pieces) <==> exists i | 0 <= i < |pieces| :: g in Ink(pieces[i])
  {
    if pieces != [] {
      InkAllMember(pieces[1..], g);
      assert forall i | 1 <= i < |pieces| :: pieces[i] == pieces[1..][i - 1];
      assert forall i | 0 <= i < |pieces[1..]| :: pieces[1..][i] == pieces[i + 1];
    }
  }

  // ----- The two end-to-end results -----

  // Every non-whitespace character of every body line ends up in a chunk
  // whose breadcrumb is the chain of headings enclosing that line.
  lemma {:induction false} EveryCharacterUnderItsHeadings(
      events: seq<Event>, maxChars: nat, overlap: nat, e: nat, g: Glyph)
    returns (k: nat)
    requires maxChars >= 1
    requires e < |events| && events[e].Body? && g in Ink(events[e].text)
    ensures var chunks := DocumentChunks(events, maxChars, overlap);
      && k < |chunks|
      && g in Ink(chunks[k].text)
      && chunks[k].headingPath == Breadcrumb(Titles(Chain(events[..e])))
  {
    hide Chain, SectionsOf, TextPieces, Breadcrumb, ChunksFrom;
    var all := events + [Cut];
    var sections := SectionsOf(all);
    LineIsKept(all, e, g);
    Extended(events, Cut);
    assert all[..e] == events[..e];
    var s :| 0 <= s < |sections| && Holds(sections[s], g, Titles(Chain(events[..e])));
    var pieces := TextPieces(sections[s].text, maxChars, overlap);
    PiecesCoverText(sections[s].text, maxChars, overlap);
    InkAllMember(pieces, g);
    var i :| 0 <= i < |pieces| && g in Ink(pieces[i]);
    k := PieceIsChunk(0, sections, maxChars, overlap, s, i);
  }

  // Conversely each chunk holds characters of one maximal run of body lines
  // only, carries the breadcrumb and the page of that run, and the chunks are
  // numbered consecutively from 0.
  lemma {:induction false} NoChunkMixesSections(events: seq<Event>, maxChars: nat, overlap: nat, k: nat)
    returns (i: nat, j: nat)
    requires maxChars >= 1
    requires k < |DocumentChunks(events, maxChars, overlap)|
    ensures var chunk := DocumentChunks(events, maxChars, overlap)[k];
      && IsRun(events, i, j)
      && (forall g | g in Ink(chunk.text) :: g in InkAll(BodyTexts(events[i..j])))
      && chunk.headingPath == Breadcrumb(Titles(Chain(events[..i])))
      && chunk.page == events[i].page
      && chunk.index == k
      && 1 <= |chunk.text| <= maxChars
  {
    hide Chain, SectionsOf, TextPieces, Breadcrumb, ChunksFrom, BodyTexts;
    var all := events + [Cut];
    var sections := SectionsOf(all);
    var s, n := ChunkOrigin(0, sections, maxChars, overlap, k);
    i, j := SectionComesFrom(all, s);
    assert forall m | 0 <= m < |events| :: all[m] == events[m];
    assert all[i..j] == events[i..j] && all[..i] == events[..i];
    var section := sections[s];
    var pieces := TextPieces(section.text, maxChars, overlap);
    PiecesCoverText(section.text, maxChars, overlap);
    SectionHasText(all, s);
    PiecesSized(section.text, maxChars, overlap);
    forall g | g in Ink(pieces[n])
      ensures g in InkAll(BodyTexts(events[i..j]))
    {
      InkAllMember(pieces, g);
    }
  }

  lemma {:induction false} SectionHasText(events: seq<Event>, k: nat)
    requires k < |SectionsOf(events)|
    ensures SectionsOf(events)[k].text != []
    decreases |events|
  {
    hide Strip, JoinLines, Pending, Chain;
    var init := events[..|events| - 1];
    if k < |SectionsOf(init)| {
      SectionHasText(init, k);
    }
  }

  // ----- Conservation for a whole document -----

  function SectionTexts(sections: seq<Section>): (texts: seq<Text>)
    ensures |texts| == |sections| && forall i | 0 <= i < |sections| :: texts[i] == sections[i].text
  {
    seq(|sections|, i requires 0 <= i < |sections| => sections[i].text)
  }

  function ChunkTexts(chunks: seq<Chunk>): (texts: seq<Text>)
    ensures |texts| == |chunks| && forall i | 0 <= i < |chunks| :: texts[i] == chunks[i].text
  {
    seq(|chunks|, i requires 0 <= i < |chunks| => chunks[i].text)
  }

  lemma FlushedInk(events: seq<Event>)
    ensures InkAll(SectionTexts(Flushed(events))) == InkAll(Pending(events))
  {
    hide Pending, Chain, JoinLines, FirstPage, Titles;
    var joined := JoinLines(Pending(events));
    JoinLinesInk(Pending(events));
    StripFacts(joined);
    InkOfBlank(joined);
    if Strip(joined) != [] {
      assert SectionTexts(Flushed(events)) == [Strip(joined)];
      InkAllOfOne(Strip(joined));
    }
  }

  // The section builder neither loses nor repeats nor reorders body characters.
  lemma {:induction false} SectionsKeepInk(events: seq<Event>)
    ensures InkAll(SectionTexts(SectionsOf(events))) + InkAll(Pending(events)) == InkAll(BodyTexts(events))
    decreases |events|
  {
    hide Flushed;
    if events != [] {
      var init, last := events[..|events| - 1], events[|events| - 1];
      SectionsKeepInk(init);
      if last.Body? {
        InkAllOfConcat(Pending(init), [last.text]);
        InkAllOfConcat(BodyTexts(init), [last.text]);
        Associative(InkAll(SectionTexts(SectionsOf(init))), InkAll(Pending(init)), InkAll([last.text]));
      } else {
        FlushedInk(init);
        assert SectionTexts(SectionsOf(events)) == SectionTexts(SectionsOf(init)) + SectionTexts(Flushed(init));
        InkAllOfConcat(SectionTexts(SectionsOf(init)), SectionTexts(Flushed(init)));
        assert BodyTexts(events) == BodyTexts(init);
      }
    }
  }

  lemma {:induction false} NumberedTexts(first: nat, pieces: seq<Text>, headingPath: string, page: Option<int>)
    ensures ChunkTexts(Numbered(first, pieces, headingPath, page)) == pieces
  {
    forall i | 0 <= i < |pieces|
      ensures ChunkTexts(Numbered(first, pieces, headingPath, page))[i] == pieces[i]
    {
      NumberedAt(first, pieces, headingPath, page, i);
    }
  }

  lemma SectionOnce(first: nat, section: Section, maxChars: nat)
    requires maxChars >= 1
    ensures multiset(InkAll(ChunkTexts(SectionChunks(first, section, maxChars, 0)))) == multiset(Ink(section.text))
  {
    hide TextPieces, Breadcrumb, Numbered;
    NumberedTexts(first, TextPieces(section.text, maxChars, 0), Breadcrumb(section.headingPath), section.page);
    PiecesOnce(section.text, maxChars);
  }

  lemma ChunkTextsConcat(a: seq<Chunk>, b: seq<Chunk>)
    ensures ChunkTexts(a + b) == ChunkTexts(a) + ChunkTexts(b)
  {
  }

  lemma {:induction false} ChunksOnce(first: nat, sections: seq<Section>, maxChars: nat)
    requires maxChars >= 1
    ensures multiset(InkAll(ChunkTexts(ChunksFrom(first, sections, maxChars, 0))))
         == multiset(InkAll(SectionTexts(sections)))
    decreases |sections|
  {
    hide SectionChunks, ChunksFrom, ChunkTexts, SectionTexts, Ink, InkAll;
    ChunksSplit(first, sections, maxChars, 0);
    if sections == [] {
      NoTexts();
    } else {
      var section, rest := sections[0], sections[1..];
      var chunks := SectionChunks(first, section, maxChars, 0);
      var later := ChunksFrom(first + |chunks|, rest, maxChars, 0);
      SectionOnce(first, section, maxChars);
      ChunksOnce(first + |chunks|, rest, maxChars);
      ChunkTextsConcat(chunks, later);
      InkAllOfConcat(ChunkTexts(chunks), ChunkTexts(later));
      MultisetOfConcat(InkAll(ChunkTexts(chunks)), InkAll(ChunkTexts(later)));
      MultisetOfConcat(Ink(section.text), InkAll(SectionTexts(rest)));
      SectionTextsFirst(sections);
    }
  }

  lemma NoTexts()
    ensures ChunkTexts([]) == [] && SectionTexts([]) == []
  {
  }

  lemma SectionTextsFirst(sections: seq<Section>)
    requires sections != []
    ensures InkAll(SectionTexts(sections)) == Ink(sections[0].text) + InkAll(SectionTexts(sections[1..]))
  {
    hide Ink;
    assert SectionTexts(sections)[1..] == SectionTexts(sections[1..]);
  }

  lemma MultisetOfConcat(a: Text, b: Text)
    ensures multiset(a + b) == multiset(a) + multiset(b)
  {
  }

  // Without overlap the chunks of a document hold each of its body characters
  // exactly as often as the document does.
  lemma {:induction false} DocumentConserved(events: seq<Event>, maxChars: nat)
    requires maxChars >= 1
    ensures multiset(InkAll(ChunkTexts(DocumentChunks(events, maxChars, 0)))) == multiset(InkAll(BodyTexts(events)))
  {
    hide SectionsOf, BodyTexts, ChunksFrom;
    var all := events + [Cut];
    SectionsKeepInk(all);
    Extended(events, Cut);
    ChunksOnce(0, SectionsOf(all), maxChars);
    CutHasNoText(events);
    assert InkAll(SectionTexts(SectionsOf(all))) + [] == InkAll(SectionTexts(SectionsOf(all)));
  }

  lemma CutHasNoText(events: seq<Event>)
    ensures BodyTexts(events + [Cut]) == BodyTexts(events)
  {
    assert (events + [Cut])[..|events|] == events;
  }
}
