// PDF structure from font sizes (app/ingestion/parsing.py:103-134): the most
// common size is body text, up to four larger sizes are heading levels.

module PdfLevels {
  import opened Options
  import opened Texts
  import opened Sections

  datatype PdfLine = PdfLine(text: Text, size: real, page: int)

  datatype ParsingError = NoExtractableText

  const MAX_HEADING_CHARS: nat := 200
  const MAX_LEVELS: nat := 4

  function Occurrences(size: real, lines: seq<PdfLine>): nat {
    if lines == [] then 0
    else (if lines[0].size == size then 1 else 0) + Occurrences(size, lines[1..])
  }

  // The first size among the most frequent ones, looking at lines[..n].
  function MostCommon(lines: seq<PdfLine>, n: nat): real
    requires 1 <= n <= |lines|
  {
    if n == 1 then lines[0].size
    else
      var best, next := MostCommon(lines, n - 1), lines[n - 1].size;
      if Occurrences(next, lines) > Occurrences(best, lines) then next else best
  }

  // It is the size of some line k: no size is more frequent, and every size
  // seen before line k is less frequent.
  lemma {:induction false} MostCommonWins(lines: seq<PdfLine>, n: nat) returns (k: nat)
    requires 1 <= n <= |lines|
    ensures k < n && lines[k].size == MostCommon(lines, n)
    ensures forall i | 0 <= i < n :: Occurrences(lines[i].size, lines) <= Occurrences(lines[k].size, lines)
    ensures forall i | 0 <= i < k :: Occurrences(lines[i].size, lines) < Occurrences(lines[k].size, lines)
  {
    hide Occurrences;
    k := 0;
    if n > 1 {
      k := MostCommonWins(lines, n - 1);
      if Occurrences(lines[n - 1].size, lines) > Occurrences(lines[k].size, lines) {
        k := n - 1;
      }
    }
  }

  ghost predicate Descending(sizes: seq<real>) {
    forall i, j | 0 <= i < j < |sizes| :: sizes[i] > sizes[j]
  }

  // Puts a size in its place unless it is there already.
  function Insert(size: real, sizes: seq<real>): (r: seq<real>)
    requires Descending(sizes)
    ensures Descending(r)
    ensures forall s :: s in r <==> s == size || s in sizes
  {
    if sizes == [] || size > sizes[0] then [size] + sizes
    else if size == sizes[0] then sizes
    else
      var rest := Insert(size, sizes[1..]);
      InsertedLater(size, sizes, rest);
      [sizes[0]] + rest
  }

  lemma InsertedLater(size: real, sizes: seq<real>, rest: seq<real>)
    requires sizes != [] && Descending(sizes) && size < sizes[0] && Descending(rest)
    requires forall s :: s in rest <==> s == size || s in sizes[1..]
    ensures Descending([sizes[0]] + rest)
    ensures forall s :: s in [sizes[0]] + rest <==> s == size || s in sizes
  {
    assert sizes == [sizes[0]] + sizes[1..];
    assert forall i | 0 <= i < |rest| :: rest[i] in rest;
    assert forall s | s in sizes[1..] :: s < sizes[0];
    var all := [sizes[0]] + rest;
    forall i, j | 0 <= i < j < |all| ensures all[i] > all[j] {
      assert all[j] == rest[j - 1] && rest[j - 1] in rest;
    }
  }

  // sorted({size for lines if size > body + 0.5}, reverse=True)
  function HeadingSizes(lines: seq<PdfLine>, bodySize: real): (r: seq<real>)
    ensures Descending(r)
    ensures forall s :: s in r <==> s > bodySize + 0.5 && exists i | 0 <= i < |lines| :: lines[i].size == s
  {
    if lines == [] then []
    else
      var rest := HeadingSizes(lines[1..], bodySize);
      assert forall i | 1 <= i < |lines| :: lines[i] == lines[1..][i - 1];
      if lines[0].size > bodySize + 0.5 then Insert(lines[0].size, rest) else rest
  }

  // Position of a size in the first MAX_LEVELS heading sizes, counted from 1.
  function LevelBySize(sizes: seq<real>, size: real, from: nat): Option<nat> {
    if sizes == [] || from > MAX_LEVELS then None
    else if sizes[0] == size then Some(from)
    else LevelBySize(sizes[1..], size, from + 1)
  }

  // The level of a size is one more than the number of larger heading sizes,
  // if that is at most four.
  lemma {:induction false} LevelIsRank(sizes: seq<real>, k: nat, from: nat)
    requires Descending(sizes) && k < |sizes|
    ensures LevelBySize(sizes, sizes[k], from) == if from + k <= MAX_LEVELS then Some(from + k) else None
    decreases k
  {
    if k > 0 {
      assert sizes[0] > sizes[k] && sizes[k] == sizes[1..][k - 1];
      LevelIsRank(sizes[1..], k - 1, from + 1);
    }
  }

  lemma {:induction false} NoLevel(sizes: seq<real>, size: real, from: nat)
    requires size !in sizes
    ensures LevelBySize(sizes, size, from) == None
    decreases |sizes|
  {
    if sizes != [] {
      NoLevel(sizes[1..], size, from + 1);
    }
  }

  // Larger type never gets a deeper level, and body text gets none.
  lemma LevelsFollowSize(sizes: seq<real>, a: real, b: real)
    requires Descending(sizes) && a in sizes && b in sizes && a > b
    ensures var la, lb := LevelBySize(sizes, a, 1), LevelBySize(sizes, b, 1);
      lb.Some? ==> la.Some? && 1 <= la.value < lb.value <= MAX_LEVELS
  {
    var i :| 0 <= i < |sizes| && sizes[i] == a;
    var j :| 0 <= j < |sizes| && sizes[j] == b;
    LevelIsRank(sizes, i, 1);
    LevelIsRank(sizes, j, 1);
  }

  function PdfEvent(line: PdfLine, sizes: seq<real>): Event {
    var level := LevelBySize(sizes, line.size, 1);
    if level.Some? && |line.text| < MAX_HEADING_CHARS then Heading(level.value, Chars(line.text))
    else Event.Body(line.text, Some(line.page))
  }

  lemma {:induction false} SizesCounted(sizes: seq<real>)
    requires Descending(sizes)
    ensures |set s | s in sizes| == |sizes|
  {
    if sizes != [] {
      var init, last := sizes[..|sizes| - 1], sizes[|sizes| - 1];
      SizesCounted(init);
      assert (set s | s in sizes) == (set s | s in init) + {last};
      assert last !in init;
    }
  }

  // A line is a heading exactly when its size is more than half a point above
  // that of the body text, at most three sizes of the document are larger, and
  // it has fewer than 200 characters; its level is one more than the number of
  // larger sizes. Any other line is body text of its page.
  lemma PdfLineIs(lines: seq<PdfLine>, k: nat, bodySize: real)
    requires k < |lines|
    ensures var line, larger := lines[k], set i | 0 <= i < |lines| && lines[i].size > lines[k].size :: lines[i].size;
      PdfEvent(line, HeadingSizes(lines, bodySize)) ==
        if line.size > bodySize + 0.5 && |larger| <= 3 && |line.text| < 200
        then Heading(|larger| + 1, Chars(line.text))
        else Event.Body(line.text, Some(line.page))
  {
    hide HeadingSizes, LevelBySize;
    var line, sizes := lines[k], HeadingSizes(lines, bodySize);
    var larger := set i | 0 <= i < |lines| && lines[i].size > line.size :: lines[i].size;
    if line.size > bodySize + 0.5 {
      assert line.size in sizes;
      var n :| 0 <= n < |sizes| && sizes[n] == line.size;
      LevelIsRank(sizes, n, 1);
      SizesCounted(sizes[..n]);
      LargerSizes(lines, bodySize, sizes, n);
    } else {
      NoLevel(sizes, line.size, 1);
    }
  }

  lemma LargerSizes(lines: seq<PdfLine>, bodySize: real, sizes: seq<real>, n: nat)
    requires sizes == HeadingSizes(lines, bodySize) && n < |sizes|
    ensures (set s | s in sizes[..n])
         == (set i | 0 <= i < |lines| && lines[i].size > sizes[n] :: lines[i].size)
  {
    hide HeadingSizes;
    assert sizes[n] in sizes;
    var first := set s | s in sizes[..n];
    var larger := set i | 0 <= i < |lines| && lines[i].size > sizes[n] :: lines[i].size;
    forall s
      ensures s in first <==> s in larger
    {
      if i :| 0 <= i < |lines| && lines[i].size > sizes[n] && lines[i].size == s {
        assert s in sizes;
        var k :| 0 <= k < |sizes| && sizes[k] == s;
        assert sizes[..n][k] == s;
      }
      if k :| 0 <= k < n && sizes[..n][k] == s {
        assert sizes[k] == s && s in sizes;
      }
    }
  }

  function PdfEvents(lines: seq<PdfLine>, sizes: seq<real>): (events: seq<Event>)
    ensures |events| == |lines| && forall i | 0 <= i < |lines| :: events[i] == PdfEvent(lines[i], sizes)
  {
    seq(|lines|, i requires 0 <= i < |lines| => PdfEvent(lines[i], sizes))
  }

  method ParsePdf(lines: seq<PdfLine>) returns (result: Result<seq<Section>, ParsingError>)
    ensures result.Err? <==> lines == []
    ensures result.Ok? ==>
      var sizes := HeadingSizes(lines, MostCommon(lines, |lines|));
      result.value == SectionsOf(PdfEvents(lines, sizes) + [Cut])
  {
    hide Chain, Pending, FirstPage, SectionsOf, LevelBySize, HeadingSizes, MostCommon;
    if lines == [] {
      return Err(NoExtractableText);
    }
    var sizes := HeadingSizes(lines, MostCommon(lines, |lines|));
    var builder := new SectionBuilder();
    for i := 0 to |lines|
      invariant builder.Valid() && fresh(builder)
      invariant builder.history == PdfEvents(lines, sizes)[..i]
    {
      var line := lines[i];
      var level := LevelBySize(sizes, line.size, 1);
      if level.Some? && |line.text| < MAX_HEADING_CHARS {
        builder.Heading(level.value, Chars(line.text), Some(line.page));
      } else {
        builder.Body(line.text, Some(line.page));
      }
    }
    var sections := builder.Build();
    assert PdfEvents(lines, sizes)[..|lines|] == PdfEvents(lines, sizes);
    result := Ok(sections);
  }
}
