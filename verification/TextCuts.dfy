// Where the chunker cuts (app/ingestion/chunking.py:19, 65-67 and 94), in terms
// of the characters alone: which fields and gaps a text falls into, and that
// there is no other way to cut it like that.

module TextCuts {
  import opened Texts
  import opened Chunking

  // Fields and the gaps between them, in order.
  function Interleaved(fields: seq<Text>, gaps: seq<Text>): Text
    requires |fields| == |gaps| + 1
    decreases |gaps|
  {
    if gaps == [] then fields[0] else fields[0] + gaps[0] + Interleaved(fields[1..], gaps[1..])
  }

  lemma InterleavedFirst(field: Text, gap: Text, fields: seq<Text>, gaps: seq<Text>)
    requires |fields| == |gaps| + 1
    ensures Interleaved([field] + fields, [gap] + gaps) == field + gap + Interleaved(fields, gaps)
  {
    assert ([field] + fields)[1..] == fields && ([gap] + gaps)[1..] == gaps;
  }

  // ----- The three ways to cut -----

  predicate Stop(c: char) {
    c == '.' || c == '!' || c == '?'
  }

  // A paragraph holds no two newlines in a row, a line no line boundary, a
  // sentence no stop directly before whitespace.
  ghost predicate FieldOk(sep: Separator, field: Text) {
    match sep
    case ParagraphBreak => forall i | 0 <= i < |field| - 1 :: field[i].ch != '\n' || field[i + 1].ch != '\n'
    case LineBreak => forall i | 0 <= i < |field| :: !IsLineBreak(field[i].ch)
    case SentenceEnd => forall i | 0 <= i < |field| - 1 :: Stop(field[i].ch) ==> !IsSpace(field[i + 1].ch)
  }

  // Between paragraphs: all the newlines there are, and at least two. Between
  // lines: one line boundary. Between sentences: all the whitespace there is
  // after a stop, and at least one character.
  ghost predicate GapOk(sep: Separator, before: Text, gap: Text, after: Text) {
    match sep
    case ParagraphBreak =>
      && |gap| >= 2 && (forall i | 0 <= i < |gap| :: gap[i].ch == '\n')
      && (before != [] ==> before[|before| - 1].ch != '\n')
      && (after != [] ==> after[0].ch != '\n')
    case LineBreak =>
      |gap| == 1 && IsLineBreak(gap[0].ch)
    case SentenceEnd =>
      && |gap| >= 1 && (forall i | 0 <= i < |gap| :: IsSpace(gap[i].ch))
      && before != [] && Stop(before[|before| - 1].ch)
      && (after != [] ==> !IsSpace(after[0].ch))
  }

  // Lines may be empty; between two other gaps there is something.
  ghost predicate CutInto(sep: Separator, t: Text, fields: seq<Text>, gaps: seq<Text>) {
    && |fields| == |gaps| + 1 && t == Interleaved(fields, gaps)
    && (forall k | 0 <= k < |fields| :: FieldOk(sep, fields[k]))
    && (forall k | 0 <= k < |gaps| :: GapOk(sep, fields[k], gaps[k], fields[k + 1]))
    && (forall k | 1 <= k < |gaps| :: fields[k] != [] || sep == LineBreak)
  }

  // ----- Splitting cuts that way -----

  lemma CutFirst(sep: Separator, field: Text, gap: Text, t: Text, fields: seq<Text>, gaps: seq<Text>)
    requires CutInto(sep, t, fields, gaps)
    requires FieldOk(sep, field) && GapOk(sep, field, gap, fields[0])
    requires t != [] ==> fields[0] != [] || sep == LineBreak
    ensures CutInto(sep, field + gap + t, [field] + fields, [gap] + gaps)
  {
    InterleavedFirst(field, gap, fields, gaps);
    assert gaps != [] ==> GapOk(sep, fields[0], gaps[0], fields[1]) && t != [];
    hide Interleaved, FieldOk, GapOk;
    var allFields, allGaps := [field] + fields, [gap] + gaps;
    forall k | 0 <= k < |allGaps| ensures GapOk(sep, allFields[k], allGaps[k], allFields[k + 1]) {
      assert k > 0 ==> GapOk(sep, fields[k - 1], gaps[k - 1], fields[k]);
    }
  }

  lemma NoCut(sep: Separator, t: Text)
    requires OpenField(sep, t, [])
    ensures CutInto(sep, t + [], [t], [])
  {
  }

  // The text since the last gap, and what is to come of it.
  ghost predicate OpenField(sep: Separator, field: Text, t: Text) {
    && FieldOk(sep, field)
    && (sep == ParagraphBreak && field != [] && t != [] ==> field[|field| - 1].ch != '\n' || t[0].ch != '\n')
  }

  lemma OpenFieldGrows(sep: Separator, field: Text, t: Text)
    requires OpenField(sep, field, t) && t != [] && SeparatorLength(sep, field, t) == 0
    ensures OpenField(sep, field + [t[0]], t[1..])
  {
    if sep == ParagraphBreak && |t| > 1 && t[0].ch == '\n' && t[1].ch == '\n' {
      assert NewlineRun(t) == 1 + NewlineRun(t[1..]);
    }
  }

  // The field before a gap and the text after it.
  lemma GapFound(sep: Separator, field: Text, t: Text)
    requires OpenField(sep, field, t)
    ensures var n := SeparatorLength(sep, field, t);
      n > 0 ==>
        && FieldOk(sep, field) && OpenField(sep, [], t[n..])
        && forall after: Text |
             (after == [] ==> t[n..] == [] || sep == LineBreak) && (after != [] ==> t[n..] != [] && after[0] == t[n]) ::
             GapOk(sep, field, t[..n], after)
  {
  }

  // The first field starts as the text does.
  lemma {:induction false} FirstFieldStarts(sep: Separator, field: Text, t: Text)
    requires OpenField(sep, field, t)
    ensures var first := SplitOn(sep, field, t)[0];
      && (field != [] ==> first != [] && first[0] == field[0])
      && (field == [] && first != [] ==> t != [] && first[0] == t[0])
      && (field == [] && t != [] && SeparatorLength(sep, field, t) == 0 ==> first != [])
    decreases |t|
  {
    hide OpenField, SeparatorLength;
    if t != [] && SeparatorLength(sep, field, t) == 0 {
      OpenFieldGrows(sep, field, t);
      FirstFieldStarts(sep, field + [t[0]], t[1..]);
    }
  }

  // Directly after a gap there is no other.
  lemma NoGapAfterGap(sep: Separator, field: Text, t: Text)
    requires SeparatorLength(sep, field, t) > 0 && sep != LineBreak
    ensures SeparatorLength(sep, [], t[SeparatorLength(sep, field, t)..]) == 0
  {
  }

  lemma CutAtGap(sep: Separator, field: Text, t: Text, rest: seq<Text>, gaps: seq<Text>)
    requires OpenField(sep, field, t) && SeparatorLength(sep, field, t) > 0
    requires var n := SeparatorLength(sep, field, t);
      rest == SplitOn(sep, [], t[n..]) && CutInto(sep, t[n..], rest, gaps)
    ensures var n := SeparatorLength(sep, field, t);
      CutInto(sep, field + t, [field] + rest, [t[..n]] + gaps)
  {
    hide OpenField, SeparatorLength, CutInto, GapOk, FieldOk, SplitOn;
    var n := SeparatorLength(sep, field, t);
    GapFound(sep, field, t);
    if sep != LineBreak {
      NoGapAfterGap(sep, field, t);
    }
    FirstFieldStarts(sep, [], t[n..]);
    assert GapOk(sep, field, t[..n], rest[0]);
    CutFirst(sep, field, t[..n], t[n..], rest, gaps);
    assert field + t[..n] + t[n..] == field + t;
  }

  lemma {:induction false} SplitCuts(sep: Separator, field: Text, t: Text) returns (gaps: seq<Text>)
    requires OpenField(sep, field, t)
    ensures CutInto(sep, field + t, SplitOn(sep, field, t), gaps)
    decreases |t|
  {
    hide OpenField, SeparatorLength, CutInto;
    var n := SeparatorLength(sep, field, t);
    if t == [] {
      gaps := [];
      NoCut(sep, field);
    } else if n > 0 {
      GapFound(sep, field, t);
      gaps := SplitCuts(sep, [], t[n..]);
      assert [] + t[n..] == t[n..];
      CutAtGap(sep, field, t, SplitOn(sep, [], t[n..]), gaps);
      gaps := [t[..n]] + gaps;
    } else {
      OpenFieldGrows(sep, field, t);
      gaps := SplitCuts(sep, field + [t[0]], t[1..]);
      assert field + [t[0]] + t[1..] == field + t;
    }
  }

  // ----- There is only one such cut -----

  lemma FirstField(sep: Separator, t: Text, fields: seq<Text>, gaps: seq<Text>, more: seq<Text>, moreGaps: seq<Text>)
    requires CutInto(sep, t, fields, gaps) && CutInto(sep, t, more, moreGaps)
    ensures |more[0]| <= |fields[0]|
  {
    var f, m := fields[0], more[0];
    assert f <= t && m <= t;
    assert forall i | 0 <= i < |m| :: m[i] == t[i];
    assert FieldOk(sep, m);
    if gaps != [] {
      assert GapOk(sep, f, gaps[0], fields[1]);
      assert forall i | 0 <= i < |gaps[0]| :: t[|f| + i] == gaps[0][i];
      assert gaps[0][0] == t[|f|];
      assert f != [] ==> t[|f| - 1] == f[|f| - 1];
      if sep == ParagraphBreak {
        assert gaps[0][1] == t[|f| + 1];
        assert moreGaps != [] ==> GapOk(sep, m, moreGaps[0], more[1]);
        assert moreGaps == [] ==> m == t;
      }
    }
  }

  predicate GapCharacter(sep: Separator, c: char) {
    match sep
    case ParagraphBreak => c == '\n'
    case LineBreak => false
    case SentenceEnd => IsSpace(c)
  }

  // What follows the first gap.
  lemma AfterGap(sep: Separator, t: Text, fields: seq<Text>, gaps: seq<Text>)
    requires CutInto(sep, t, fields, gaps) && gaps != []
    ensures var n := |fields[0]| + |gaps[0]|;
      && n <= |t| && t[|fields[0]|..n] == gaps[0] && (n < |t| ==> !GapCharacter(sep, t[n].ch))
      && CutInto(sep, t[n..], fields[1..], gaps[1..])
  {
    var n, rest := |fields[0]| + |gaps[0]|, Interleaved(fields[1..], gaps[1..]);
    assert t == fields[0] + gaps[0] + rest;
    assert t[n..] == rest;
    assert GapOk(sep, fields[0], gaps[0], fields[1]);
    assert fields[1] <= rest;
    assert fields[1] == [] ==> |gaps| == 1 || sep == LineBreak;
    hide FieldOk, GapOk, Interleaved;
    forall k | 0 <= k < |gaps[1..]| ensures GapOk(sep, fields[1..][k], gaps[1..][k], fields[1..][k + 1]) {
      assert GapOk(sep, fields[k + 1], gaps[k + 1], fields[k + 2]);
    }
  }

  // The first gap goes on for as long as it can.
  lemma FirstGap(sep: Separator, t: Text, fields: seq<Text>, gaps: seq<Text>, more: seq<Text>, moreGaps: seq<Text>)
    requires CutInto(sep, t, fields, gaps) && CutInto(sep, t, more, moreGaps)
    requires fields[0] == more[0] && gaps != [] && moreGaps != []
    ensures gaps[0] == moreGaps[0]
  {
    hide GapOk, FieldOk, GapCharacter, Interleaved;
    assert GapOk(sep, fields[0], gaps[0], fields[1]) && GapOk(sep, more[0], moreGaps[0], more[1]);
    AfterGap(sep, t, fields, gaps);
    AfterGap(sep, t, more, moreGaps);
    hide CutInto;
    GapCharacters(sep, fields[0], gaps[0], fields[1]);
    GapCharacters(sep, more[0], moreGaps[0], more[1]);
    if |gaps[0]| < |moreGaps[0]| {
      RunIsLonger(sep, t, |fields[0]|, gaps[0], moreGaps[0]);
    } else if |moreGaps[0]| < |gaps[0]| {
      RunIsLonger(sep, t, |fields[0]|, moreGaps[0], gaps[0]);
    }
  }

  lemma GapCharacters(sep: Separator, before: Text, gap: Text, after: Text)
    requires GapOk(sep, before, gap, after)
    ensures |gap| >= 1
    ensures if sep == LineBreak then |gap| == 1 else forall i | 0 <= i < |gap| :: GapCharacter(sep, gap[i].ch)
  {
  }

  // Where the shorter of two gaps ends, the longer goes on.
  lemma RunIsLonger(sep: Separator, t: Text, f: nat, gap: Text, longer: Text)
    requires |gap| < |longer| && f + |longer| <= |t| && t[f..f + |longer|] == longer
    requires forall i | 0 <= i < |longer| :: GapCharacter(sep, longer[i].ch)
    ensures GapCharacter(sep, t[f + |gap|].ch)
  {
    hide GapCharacter;
    assert t[f + |gap|] == t[f..f + |longer|][|gap|];
  }

  lemma OnlyField(sep: Separator, t: Text, fields: seq<Text>, gaps: seq<Text>)
    requires CutInto(sep, t, fields, gaps)
    ensures fields[0] <= t
    ensures gaps == [] ==> |t| == |fields[0]|
    ensures gaps != [] ==> |t| > |fields[0]|
  {
    assert gaps != [] ==> GapOk(sep, fields[0], gaps[0], fields[1]);
  }

  lemma {:induction false} CutIsUnique(
      sep: Separator, t: Text, fields: seq<Text>, gaps: seq<Text>, more: seq<Text>, moreGaps: seq<Text>)
    requires CutInto(sep, t, fields, gaps) && CutInto(sep, t, more, moreGaps)
    ensures fields == more && gaps == moreGaps
    decreases |gaps|
  {
    FirstField(sep, t, fields, gaps, more, moreGaps);
    FirstField(sep, t, more, moreGaps, fields, gaps);
    OnlyField(sep, t, fields, gaps);
    OnlyField(sep, t, more, moreGaps);
    assert fields[0] == more[0];
    assert |fields| == |gaps| + 1 && |more| == |moreGaps| + 1;
    if gaps != [] {
      FirstGap(sep, t, fields, gaps, more, moreGaps);
      AfterGap(sep, t, fields, gaps);
      AfterGap(sep, t, more, moreGaps);
      hide CutInto;
      CutIsUnique(sep, t[|fields[0]| + |gaps[0]|..], fields[1..], gaps[1..], more[1..], moreGaps[1..]);
      assert fields == [fields[0]] + fields[1..] && gaps == [gaps[0]] + gaps[1..];
      assert more == [more[0]] + more[1..] && moreGaps == [moreGaps[0]] + moreGaps[1..];
    }
  }

  // Splitting gives the one way to cut a text so.
  lemma SplitIsTheCut(sep: Separator, t: Text) returns (gaps: seq<Text>)
    ensures CutInto(sep, t, SplitOn(sep, [], t), gaps)
    ensures forall fields, others | CutInto(sep, t, fields, others) ::
      fields == SplitOn(sep, [], t) && others == gaps
  {
    assert OpenField(sep, [], t);
    hide CutInto, OpenField;
    gaps := SplitCuts(sep, [], t);
    assert [] + t == t;
    forall fields, others | CutInto(sep, t, fields, others)
      ensures fields == SplitOn(sep, [], t) && others == gaps
    {
      CutIsUnique(sep, t, fields, others, SplitOn(sep, [], t), gaps);
    }
  }

  // The sentences of a paragraph are the one way to cut it at stops.
  lemma SentencesAreTheCut(paragraph: Text) returns (gaps: seq<Text>)
    ensures CutInto(SentenceEnd, paragraph, Sentences(paragraph), gaps)
    ensures forall fields, others | CutInto(SentenceEnd, paragraph, fields, others) ::
      fields == Sentences(paragraph) && others == gaps
  {
    hide CutInto;
    gaps := SplitIsTheCut(SentenceEnd, paragraph);
  }

  // ----- The fields that are kept -----

  predicate EndsInInk(t: Text) {
    t != [] && !IsSpace(t[|t| - 1].ch)
  }

  // `trimmed` is `t` without the whitespace at its two ends.
  ghost predicate Trimmed(trimmed: Text, t: Text) {
    exists i, j :: 0 <= i <= j <= |t| && trimmed == t[i..j] && TrimmedAt(t, i, j)
  }

  ghost predicate TrimmedAt(t: Text, i: nat, j: nat)
    requires i <= j <= |t|
  {
    && (forall k | 0 <= k < |t| :: k < i || j <= k ==> IsSpace(t[k].ch))
    && (i < j ==> !IsSpace(t[i].ch) && !IsSpace(t[j - 1].ch))
  }

  lemma StripTrims(t: Text)
    ensures Trimmed(Strip(t), t)
  {
    var i, j := StripIsSlice(t);
    assert forall k | 0 <= k < i :: t[..i][k] == t[k];
    assert forall k | j <= k < |t| :: t[j..][k - j] == t[k];
    var r := RStrip(t);
    LStripDropsBlank(r);
    assert i < j ==> t[i] == Strip(t)[0] && t[j - 1] == Strip(t)[|Strip(t)| - 1];
    assert Strip(t) != [] ==> Strip(t)[|Strip(t)| - 1] == r[|r| - 1];
    assert TrimmedAt(t, i, j);
  }

  ghost predicate HasInk(t: Text) {
    exists i :: 0 <= i < |t| && !IsSpace(t[i].ch)
  }

  // These are the numbers, in order, of the texts with anything but whitespace.
  ghost predicate Inked(ts: seq<Text>, kept: seq<nat>) {
    InkedFrom(ts, 0, kept)
  }

  ghost predicate InkedFrom(ts: seq<Text>, first: nat, kept: seq<nat>) {
    && (forall a, b | 0 <= a < b < |kept| :: kept[a] < kept[b])
    && (forall k: nat :: k in kept <==> first <= k < |ts| && HasInk(ts[k]))
  }

  lemma InkedMore(ts: seq<Text>, first: nat, later: seq<nat>)
    requires first < |ts| && InkedFrom(ts, first + 1, later)
    ensures InkedFrom(ts, first, if HasInk(ts[first]) then [first] + later else later)
  {
    hide HasInk;
    assert forall i | 0 <= i < |later| :: later[i] in later;
  }

  lemma StripHasInk(t: Text)
    ensures Strip(t) != [] <==> HasInk(t)
  {
    StripFacts(t);
  }

  ghost predicate Picks(ts: seq<Text>, kept: seq<nat>, picked: seq<Text>) {
    |picked| == |kept| && forall i | 0 <= i < |kept| :: kept[i] < |ts| && picked[i] == ts[kept[i]]
  }

  lemma NonBlankFirst(ts: seq<Text>, first: nat)
    requires first < |ts|
    ensures NonBlank(ts[first..]) == (if HasInk(ts[first]) then [ts[first]] else []) + NonBlank(ts[first + 1..])
  {
    hide HasInk, Strip;
    StripHasInk(ts[first]);
    var todo := ts[first..];
    assert todo[0] == ts[first] && todo[1..] == ts[first + 1..];
  }

  lemma {:induction false} NonBlankKeepsInked(ts: seq<Text>, first: nat) returns (kept: seq<nat>)
    requires first <= |ts|
    ensures InkedFrom(ts, first, kept) && Picks(ts, kept, NonBlank(ts[first..]))
    decreases |ts| - first
  {
    hide HasInk, InkedFrom, NonBlank, Picks;
    if first == |ts| {
      kept := [];
      NoneInked(ts);
    } else {
      var later := NonBlankKeepsInked(ts, first + 1);
      InkedMore(ts, first, later);
      NonBlankFirst(ts, first);
      kept := if HasInk(ts[first]) then [first] + later else later;
      PicksMore(ts, first, later, NonBlank(ts[first + 1..]));
    }
  }

  lemma NoneInked(ts: seq<Text>)
    ensures InkedFrom(ts, |ts|, []) && Picks(ts, [], NonBlank(ts[|ts|..]))
  {
    hide HasInk;
  }

  lemma PicksMore(ts: seq<Text>, first: nat, later: seq<nat>, picked: seq<Text>)
    requires first < |ts| && Picks(ts, later, picked)
    ensures Picks(ts, [first] + later, [ts[first]] + picked)
    ensures [] + picked == picked
  {
  }

  lemma {:induction false} StripAllTrims(ts: seq<Text>)
    ensures |StripAll(ts)| == |ts| && forall i | 0 <= i < |ts| :: Trimmed(StripAll(ts)[i], ts[i])
  {
    if ts != [] {
      hide Trimmed;
      StripTrims(ts[0]);
      StripAllTrims(ts[1..]);
    }
  }

  // The paragraphs of a text are what lies between its blank lines, trimmed and
  // without the empty ones, unless only one is left: then they are its lines as
  // they are, without the blank ones.
  lemma ParagraphsAreTheCut(text: Text)
      returns (fields: seq<Text>, gaps: seq<Text>, kept: seq<nat>,
               lines: seq<Text>, breaks: seq<Text>, keptLines: seq<nat>)
    ensures CutInto(ParagraphBreak, text, fields, gaps) && Inked(fields, kept)
    ensures CutInto(LineBreak, text, lines, breaks) && Inked(lines, keptLines)
    ensures |kept| != 1 ==>
      && |Paragraphs(text)| == |kept|
      && forall i | 0 <= i < |kept| :: kept[i] < |fields| && Trimmed(Paragraphs(text)[i], fields[kept[i]])
    ensures |kept| == 1 ==>
      && |Paragraphs(text)| == |keptLines|
      && forall i | 0 <= i < |keptLines| :: keptLines[i] < |lines| && Paragraphs(text)[i] == lines[keptLines[i]]
  {
    hide CutInto, InkedFrom, Trimmed, SplitOn, NonBlank, StripAll;
    fields, lines := SplitOn(ParagraphBreak, [], text), SplitOn(LineBreak, [], text);
    gaps := SplitIsTheCut(ParagraphBreak, text);
    breaks := SplitIsTheCut(LineBreak, text);
    kept := NonBlankKeepsInked(fields, 0);
    keptLines := NonBlankKeepsInked(lines, 0);
    assert fields[0..] == fields && lines[0..] == lines;
    StripAllTrims(NonBlank(fields));
  }
}
