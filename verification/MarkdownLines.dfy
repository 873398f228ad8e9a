// What the markdown parser makes of a line, in terms of its characters
// (app/ingestion/parsing.py:173-184), and what that means for the headings
// over a section.

module MarkdownLines {
  import opened Options
  import opened Texts
  import opened Sections
  import opened TextCuts

  // n hashes, one to six of them, and then whitespace.
  ghost predicate Hashed(line: Text, n: nat) {
    && 1 <= n <= 6 && n < |line|
    && (forall i | 0 <= i < n :: line[i].ch == '#')
    && IsSpace(line[n].ch)
  }

  lemma HashRunIs(line: Text, n: nat)
    requires n < |line| && line[n].ch != '#'
    requires forall i | 0 <= i < n :: line[i].ch == '#'
    ensures HashRun(line) == n
  {
  }

  lemma SameBounds(t: Text, i: nat, j: nat, k: nat, l: nat)
    requires i < j <= |t| && k <= l <= |t| && TrimmedAt(t, i, j) && TrimmedAt(t, k, l)
    ensures i == k && j == l
  {
    hide IsSpace;
    assert !IsSpace(t[i].ch) && !IsSpace(t[j - 1].ch);
  }

  lemma TrimmedIsUnique(a: Text, b: Text, t: Text)
    requires Trimmed(a, t) && Trimmed(b, t)
    ensures a == b
  {
    hide TrimmedAt;
    var i, j :| 0 <= i <= j <= |t| && a == t[i..j] && TrimmedAt(t, i, j);
    var k, l :| 0 <= k <= l <= |t| && b == t[k..l] && TrimmedAt(t, k, l);
    if i < j {
      SameBounds(t, i, j, k, l);
    } else if k < l {
      SameBounds(t, k, l, i, j);
    }
  }

  // A line of hashes, whitespace and a title is a heading of that level and title.
  lemma HeadingLine(hashes: Text, gap: Text, title: Text, end: Text)
    requires 1 <= |hashes| <= 6 && forall i | 0 <= i < |hashes| :: hashes[i].ch == '#'
    requires gap != [] && forall i | 0 <= i < |gap| :: IsSpace(gap[i].ch)
    requires title != [] ==> !IsSpace(title[0].ch) && !IsSpace(title[|title| - 1].ch)
    requires forall i | 0 <= i < |end| :: IsSpace(end[i].ch)
    ensures MarkdownEvent(hashes + gap + title + end) == [Heading(|hashes|, Chars(title))]
  {
    var n, rest := |hashes|, gap + title + end;
    var line := hashes + gap + title + end;
    assert forall i | 0 <= i < n :: line[i] == hashes[i];
    assert line[n] == gap[0] && line[n..] == rest;
    HashRunIs(line, n);
    hide HashRun, Strip;
    assert TrimmedAt(rest, |gap|, |gap| + |title|);
    assert rest[|gap|..|gap| + |title|] == title;
    assert Trimmed(title, rest);
    StripTrims(rest);
    TrimmedIsUnique(title, Strip(rest), rest);
  }

  // The same for any line with hashes and whitespace in front.
  lemma HashedLine(line: Text, n: nat, title: Text)
    requires Hashed(line, n) && Trimmed(title, line[n..])
    ensures MarkdownEvent(line) == [Heading(n, Chars(title))]
  {
    hide Strip, Trimmed;
    HashRunIs(line, n);
    StripTrims(line[n..]);
    TrimmedIsUnique(title, Strip(line[n..]), line[n..]);
  }

  lemma NoHeading(line: Text)
    requires forall n: nat :: !Hashed(line, n)
    ensures MarkdownHeading(line) == None
  {
    var n := HashRun(line);
    assert !Hashed(line, n);
    hide HashRun, Strip, IsSpace;
  }

  // What is stripped off the end of a line, and what is left.
  lemma RightStripped(line: Text)
    ensures var r := RStrip(line);
      && |r| <= |line| && line[..|r|] == r && (forall k | |r| <= k < |line| :: IsSpace(line[k].ch))
      && (HasInk(line) ==> EndsInInk(r))
  {
    hide IsSpace;
    RStripDropsBlank(line);
    var r := RStrip(line);
    hide RStrip;
    forall k | |r| <= k < |line| ensures IsSpace(line[k].ch) {
      assert line[|r|..][k - |r|] == line[k];
    }
  }

  // Every other line is body text without its trailing whitespace, and a
  // blank line is nothing.
  lemma OtherLine(line: Text)
    requires forall n: nat :: !Hashed(line, n)
    ensures !HasInk(line) ==> MarkdownEvent(line) == []
    ensures HasInk(line) ==>
      exists j: nat :: j <= |line| && MarkdownEvent(line) == [Event.Body(line[..j], None)]
        && EndsInInk(line[..j]) && forall k | j <= k < |line| :: IsSpace(line[k].ch)
  {
    NoHeading(line);
    StripHasInk(line);
    RightStripped(line);
    hide MarkdownHeading, Strip, RStrip, HasInk, EndsInInk, IsSpace, Hashed;
    var j := |RStrip(line)|;
    assert line[..j] == RStrip(line);
  }

  // ----- Two headings in a row -----

  lemma {:induction false} ShallowerTwice(stack: seq<Head>, a: int, b: int)
    ensures Shallower(Shallower(stack, a), b) == Shallower(stack, if a < b then a else b)
  {
    if stack != [] {
      ShallowerTwice(stack[1..], a, b);
      var first := if stack[0].level < a then [stack[0]] else [];
      ShallowerConcat(first, Shallower(stack[1..], a), b);
    }
  }

  // The history up to a body line under two headings in a row.
  lemma UnderTwoHeadings(past: seq<Event>, n: int, a: string, m: int, b: string, text: Text)
    ensures var events := past + [Heading(n, a)] + [Heading(m, b)] + [Event.Body(text, None)];
      && Pending(events) == [text] && FirstPage(events) == None
      && Chain(events)
         == Shallower(Chain(past), if n < m then n else m) + (if m > n then [Head(n, a)] else []) + [Head(m, b)]
  {
    hide Chain, Pending, FirstPage, Shallower;
    var one := past + [Heading(n, a)];
    var two := one + [Heading(m, b)];
    Extended(one, Heading(m, b));
    Extended(two, Event.Body(text, None));
    ChainOfHeading(past, Heading(n, a));
    ChainOfHeading(one, Heading(m, b));
    ShallowerConcat(Shallower(Chain(past), n), [Head(n, a)], m);
    ShallowerTwice(Chain(past), n, m);
    ShallowerOfOne(Head(n, a), m);
    assert [] + [text] == [text];
  }

  lemma ShallowerOfOne(head: Head, level: int)
    ensures Shallower([head], level) == if head.level < level then [head] else []
  {
    assert [head][1..] == [];
  }

  lemma EventsOfThree(before: seq<Text>, a: Text, b: Text, c: Text)
    ensures MarkdownEvents(before + [a, b, c])
         == MarkdownEvents(before) + MarkdownEvent(a) + MarkdownEvent(b) + MarkdownEvent(c)
  {
    hide MarkdownEvents, MarkdownEvent;
    var lines, n := before + [a, b, c], |before|;
    assert lines[..n] == before && lines[..n + 3] == lines;
    MarkdownEventsSnoc(lines, n);
    MarkdownEventsSnoc(lines, n + 1);
    MarkdownEventsSnoc(lines, n + 2);
  }

  // The section of a body line under headings of n and m hashes: its path ends
  // in both titles exactly when the second heading has more hashes, otherwise
  // in the second one only; before these come the headings of the text before
  // that are above both.
  lemma SectionUnderTwoHeadings(
      before: seq<Text>, first: Text, n: nat, a: Text, second: Text, m: nat, b: Text, line: Text)
      returns (sections: seq<Section>, outer: seq<string>)
    requires Hashed(first, n) && Trimmed(a, first[n..])
    requires Hashed(second, m) && Trimmed(b, second[m..])
    requires HasInk(line) && forall k: nat :: !Hashed(line, k)
    ensures sections == SectionsOf(MarkdownEvents(before + [first, second, line]) + [Cut])
    ensures sections != [] && Trimmed(sections[|sections| - 1].text, line)
    ensures sections[|sections| - 1].headingPath
         == outer + if m > n then [Chars(a), Chars(b)] else [Chars(b)]
    ensures outer == Titles(Shallower(Chain(MarkdownEvents(before)), if n < m then n else m))
  {
    hide MarkdownEvents, MarkdownEvent, Hashed, Trimmed, HasInk, Chain, Pending, FirstPage, Shallower, Strip;
    var past := MarkdownEvents(before);
    HashedLine(first, n, a);
    HashedLine(second, m, b);
    var text := BodyLine(line);
    EventsOfThree(before, first, second, line);
    UnderTwoHeadings(past, n, Chars(a), m, Chars(b), text);
    var events := past + [Heading(n, Chars(a))] + [Heading(m, Chars(b))] + [Event.Body(text, None)];
    assert MarkdownEvents(before + [first, second, line]) == events;
    sections := SectionsOf(events + [Cut]);
    outer := Titles(Shallower(Chain(past), if n < m then n else m));
    Extended(events, Cut);
    hide SectionsOf;
    FlushedOne(events, text);
    assert Titles(Chain(events)) == outer + if m > n then [Chars(a), Chars(b)] else [Chars(b)];
  }

  lemma FlushedOne(events: seq<Event>, text: Text)
    requires Pending(events) == [text] && Strip(text) != []
    ensures Flushed(events) == [Section(Titles(Chain(events)), Strip(text), FirstPage(events))]
  {
    hide Strip, Chain, Pending, FirstPage, Titles;
  }

  // A body line and what a section of it alone holds.
  lemma BodyLine(line: Text) returns (text: Text)
    requires HasInk(line) && forall k: nat :: !Hashed(line, k)
    ensures MarkdownEvent(line) == [Event.Body(text, None)]
    ensures Strip(text) != [] && Trimmed(Strip(text), line)
  {
    OtherLine(line);
    var j: nat :| j <= |line| && MarkdownEvent(line) == [Event.Body(line[..j], None)]
      && EndsInInk(line[..j]) && forall k | j <= k < |line| :: IsSpace(line[k].ch);
    text := line[..j];
    hide MarkdownEvent;
    StripTrims(text);
    StripHasInk(text);
    TrimmedLonger(Strip(text), line, j);
    hide Strip, Trimmed;
    assert text[j - 1] == line[j - 1];
  }

  lemma TrimmedLonger(trimmed: Text, line: Text, j: nat)
    requires j <= |line| && Trimmed(trimmed, line[..j])
    requires forall k | j <= k < |line| :: IsSpace(line[k].ch)
    ensures Trimmed(trimmed, line)
  {
    var t := line[..j];
    var i, k :| 0 <= i <= k <= |t| && trimmed == t[i..k] && TrimmedAt(t, i, k);
    assert forall l | 0 <= l < j :: t[l] == line[l];
    assert trimmed == line[i..k];
    assert TrimmedAt(line, i, k);
  }
}
