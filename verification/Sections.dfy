// From a stream of headings and body lines to sections
// (app/ingestion/parsing.py): the section builder and the markdown parser.
//
// The builder is proved against the whole history of its calls. The heading
// stack is not described by pushes and pops but by the property it has to
// have: a past heading encloses the current line exactly when every heading
// after it is strictly deeper.

module Sections {
  import opened Options
  import opened Texts

  datatype Section = Section(headingPath: seq<string>, text: Text, page: Option<int>)

  datatype Head = Head(level: int, title: string)

  // The calls of a builder: heading(), body() and flush().
  datatype Event =
    | Heading(level: int, title: string)
    | Body(text: Text, page: Option<int>)
    | Cut

  // ----- The headings that enclose the end of a history -----

  predicate Encloses(events: seq<Event>, i: nat)
    requires i < |events|
  {
    events[i].Heading? && forall j | i < j < |events| && events[j].Heading? :: events[j].level > events[i].level
  }

  function Chain(events: seq<Event>): seq<Head> {
    if events == [] then []
    else (if Encloses(events, 0) then [Head(events[0].level, events[0].title)] else []) + Chain(events[1..])
  }

  function Titles(stack: seq<Head>): seq<string> {
    seq(|stack|, i requires 0 <= i < |stack| => stack[i].title)
  }

  ghost predicate StrictlyDeeper(stack: seq<Head>) {
    forall i, j | 0 <= i < j < |stack| :: stack[i].level < stack[j].level
  }

  function Shallower(stack: seq<Head>, level: int): seq<Head> {
    if stack == [] then []
    else (if stack[0].level < level then [stack[0]] else []) + Shallower(stack[1..], level)
  }

  lemma {:induction false} ShallowerConcat(a: seq<Head>, b: seq<Head>, level: int)
    ensures Shallower(a + b, level) == Shallower(a, level) + Shallower(b, level)
  {
    if a == [] {
      assert a + b == b;
    } else {
      assert (a + b)[0] == a[0] && (a + b)[1..] == a[1..] + b;
      ShallowerConcat(a[1..], b, level);
      Associative(if a[0].level < level then [a[0]] else [], Shallower(a[1..], level), Shallower(b, level));
    }
  }

  lemma {:induction false} ShallowerKeepsAll(stack: seq<Head>, level: int)
    requires forall i | 0 <= i < |stack| :: stack[i].level < level
    ensures Shallower(stack, level) == stack
  {
    if stack != [] {
      ShallowerKeepsAll(stack[1..], level);
    }
  }

  lemma PopKeepsShallower(stack: seq<Head>, level: int)
    requires stack != [] && stack[|stack| - 1].level >= level && StrictlyDeeper(stack)
    ensures StrictlyDeeper(stack[..|stack| - 1])
    ensures Shallower(stack[..|stack| - 1], level) == Shallower(stack, level)
  {
    var init, top := stack[..|stack| - 1], stack[|stack| - 1];
    assert Shallower(stack, level) == Shallower(init, level) + Shallower([top], level) by {
      assert stack == init + [top];
      ShallowerConcat(init, [top], level);
    }
    assert Shallower([top], level) == [] + Shallower([top][1..], level);
  }

  lemma AllShallower(stack: seq<Head>, level: int)
    requires StrictlyDeeper(stack)
    requires stack == [] || stack[|stack| - 1].level < level
    ensures Shallower(stack, level) == stack
  {
    ShallowerKeepsAll(stack, level);
  }

  // Adding a heading removes from the chain what is not strictly shallower.
  lemma {:induction false} ChainOfHeading(events: seq<Event>, e: Event)
    requires e.Heading?
    ensures Chain(events + [e]) == Shallower(Chain(events), e.level) + [Head(e.level, e.title)]
  {
    var all := events + [e];
    if events == [] {
      assert all[1..] == [];
    } else {
      assert all[0] == events[0] && all[1..] == events[1..] + [e];
      ChainOfHeading(events[1..], e);
      assert Encloses(all, 0) <==> Encloses(events, 0) && events[0].level < e.level by {
        assert all[|events|] == e;
        assert forall j | 0 <= j < |events| :: all[j] == events[j];
      }
      var first := if Encloses(events, 0) then [Head(events[0].level, events[0].title)] else [];
      ShallowerConcat(first, Chain(events[1..]), e.level);
      Associative(Shallower(first, e.level), Shallower(Chain(events[1..]), e.level), [Head(e.level, e.title)]);
    }
  }

  lemma {:induction false} ChainOfOther(events: seq<Event>, e: Event)
    requires !e.Heading?
    ensures Chain(events + [e]) == Chain(events)
  {
    var all := events + [e];
    if events == [] {
      assert all[1..] == [];
    } else {
      assert all[0] == events[0] && all[1..] == events[1..] + [e];
      ChainOfOther(events[1..], e);
      assert Encloses(all, 0) <==> Encloses(events, 0) by {
        assert all[|events|] == e;
        assert forall j | 0 <= j < |events| :: all[j] == events[j];
      }
    }
  }

  lemma {:induction false} ChainBelow(events: seq<Event>, level: int)
    requires forall j | 0 <= j < |events| && events[j].Heading? :: events[j].level > level
    ensures forall k | 0 <= k < |Chain(events)| :: Chain(events)[k].level > level
  {
    if events != [] {
      ChainBelow(events[1..], level);
    }
  }

  // The levels on the stack strictly increase, whatever the headings were.
  lemma {:induction false} ChainIsDeeper(events: seq<Event>)
    ensures StrictlyDeeper(Chain(events))
  {
    if events != [] {
      ChainIsDeeper(events[1..]);
      if Encloses(events, 0) {
        ChainBelow(events[1..], events[0].level);
      }
    }
  }

  // ----- The body lines since the last heading or flush -----

  function Pending(events: seq<Event>): seq<Text> {
    if events == [] || !events[|events| - 1].Body? then []
    else Pending(events[..|events| - 1]) + [events[|events| - 1].text]
  }

  function FirstPage(events: seq<Event>): Option<int> {
    if events == [] || !events[|events| - 1].Body? then None
    else
      var init := events[..|events| - 1];
      if Pending(init) == [] then events[|events| - 1].page else FirstPage(init)
  }

  // "\n".join(lines)
  function JoinLines(lines: seq<Text>): Text {
    if lines == [] then []
    else if |lines| == 1 then lines[0]
    else lines[0] + [NEWLINE] + JoinLines(lines[1..])
  }

  lemma {:induction false} JoinLinesConcat(a: seq<Text>, b: seq<Text>, line: Text)
    ensures JoinLines([]) == [] && JoinLines([line]) == line
    ensures a != [] && b != [] ==> JoinLines(a + b) == JoinLines(a) + [Glyph('\n', -1)] + JoinLines(b)
  {
    if |a| == 1 {
      assert (a + b)[0] == a[0] && (a + b)[1..] == b;
    } else if a != [] {
      JoinLinesConcat(a[1..], b, line);
      assert (a + b)[0] == a[0] && (a + b)[1..] == a[1..] + b;
      Associative(a[0] + [NEWLINE], JoinLines(a[1..]), [NEWLINE] + JoinLines(b));
      Associative(JoinLines(a[1..]), [NEWLINE], JoinLines(b));
      Associative(JoinLines(a), [NEWLINE], JoinLines(b));
    }
  }

  lemma {:induction false} JoinLinesInk(lines: seq<Text>)
    ensures Ink(JoinLines(lines)) == InkAll(lines)
  {
    if |lines| == 1 {
      InkAllOfOne(lines[0]);
      assert lines == [lines[0]];
    } else if lines != [] {
      JoinLinesInk(lines[1..]);
      InkOfJoin(lines[0], NEWLINE, JoinLines(lines[1..]));
    }
  }

  // ----- The sections of a history -----

  // The section that a flush at the end of this history adds, if any.
  function Flushed(events: seq<Event>): seq<Section> {
    var text := Strip(JoinLines(Pending(events)));
    if text == [] then [] else [Section(Titles(Chain(events)), text, FirstPage(events))]
  }

  function SectionsOf(events: seq<Event>): seq<Section> {
    if events == [] then []
    else
      var init := events[..|events| - 1];
      if events[|events| - 1].Body? then SectionsOf(init) else SectionsOf(init) + Flushed(init)
  }

  // What one more call does to the declarative view of a history.
  lemma Extended(events: seq<Event>, e: Event)
    ensures Pending(events + [e]) == if e.Body? then Pending(events) + [e.text] else []
    ensures e.Body? ==> FirstPage(events + [e]) == if Pending(events) == [] then e.page else FirstPage(events)
    ensures SectionsOf(events + [e]) == SectionsOf(events) + if e.Body? then [] else Flushed(events)
    ensures !e.Heading? ==> Chain(events + [e]) == Chain(events)
  {
    hide Flushed, Chain;
    assert (events + [e])[..|events|] == events;
    if !e.Heading? {
      ChainOfOther(events, e);
    }
  }

  lemma NothingPending(events: seq<Event>)
    ensures Pending(events) == [] ==> Flushed(events) == []
  {
  }

  // ----- The builder -----

  class SectionBuilder {
    var sections: seq<Section>
    var stack: seq<Head>
    var lines: seq<Text>
    var page: Option<int>
    ghost var history: seq<Event>

    ghost predicate Valid()
      reads this
    {
      && stack == Chain(history)
      && lines == Pending(history)
      && (lines != [] ==> page == FirstPage(history))
      && sections == SectionsOf(history)
    }

    constructor ()
      ensures Valid() && history == []
    {
      sections, stack, lines, page := [], [], [], None;
      history := [];
    }

    method Heading(level: int, title: string, headingPage: Option<int>)
      requires Valid()
      modifies this
      ensures Valid() && StrictlyDeeper(stack)
      ensures history == old(history) + [Event.Heading(level, title)]
    {
      hide Chain, Pending, FirstPage, SectionsOf, Flushed, StrictlyDeeper, Shallower;
      ghost var past := history;
      Extended(past, Cut);
      Extended(past, Event.Heading(level, title));
      Flush();
      ChainIsDeeper(past);
      while stack != [] && stack[|stack| - 1].level >= level
        invariant StrictlyDeeper(stack)
        invariant Shallower(stack, level) == Shallower(Chain(past), level)
        invariant lines == [] && sections == SectionsOf(past) + Flushed(past)
      {
        PopKeepsShallower(stack, level);
        stack := stack[..|stack| - 1];
      }
      AllShallower(stack, level);
      stack := stack + [Head(level, title)];
      page := headingPage;
      history := past + [Event.Heading(level, title)];
      ChainOfHeading(past, Event.Heading(level, title));
      ChainIsDeeper(history);
    }

    method Body(text: Text, bodyPage: Option<int>)
      requires Valid()
      modifies this
      ensures Valid()
      ensures history == old(history) + [Event.Body(text, bodyPage)]
    {
      hide Chain, Pending, FirstPage, SectionsOf, Flushed;
      if lines == [] {
        page := bodyPage;
      }
      lines := lines + [text];
      Extended(history, Event.Body(text, bodyPage));
      history := history + [Event.Body(text, bodyPage)];
    }

    method Flush()
      requires Valid()
      modifies this
      ensures Valid() && lines == []
      ensures history == old(history) + [Cut]
    {
      hide Chain, Pending, FirstPage, SectionsOf, Strip, JoinLines, Titles;
      var text := Strip(JoinLines(lines));
      if text != [] {
        sections := sections + [Section(Titles(stack), text, page)];
      }
      NothingPending(history);
      lines := [];
      Extended(history, Cut);
      history := history + [Cut];
    }

    method Build() returns (result: seq<Section>)
      requires Valid()
      modifies this
      ensures Valid() && history == old(history) + [Cut]
      ensures result == SectionsOf(old(history) + [Cut])
    {
      Flush();
      result := sections;
    }
  }

  // ----- Markdown -----

  function HashRun(t: Text): (n: nat)
    ensures n <= |t|
    ensures forall i | 0 <= i < n :: t[i].ch == '#'
    ensures n < |t| ==> t[n].ch != '#'
  {
    if t != [] && t[0].ch == '#' then 1 + HashRun(t[1..]) else 0
  }

  // One to six hashes and then whitespace; the title is the stripped rest.
  function MarkdownHeading(line: Text): Option<Event> {
    var n := HashRun(line);
    if 1 <= n <= 6 && n < |line| && IsSpace(line[n].ch) then Some(Heading(n, Chars(Strip(line[n..]))))
    else None
  }

  function MarkdownEvent(line: Text): seq<Event> {
    var heading := MarkdownHeading(line);
    if heading.Some? then [heading.value]
    else if Strip(line) != [] then [Event.Body(RStrip(line), None)]
    else []
  }

  function MarkdownEvents(lines: seq<Text>): seq<Event> {
    if lines == [] then [] else MarkdownEvent(lines[0]) + MarkdownEvents(lines[1..])
  }

  lemma {:induction false} MarkdownEventsSnoc(lines: seq<Text>, k: nat)
    requires k < |lines|
    ensures MarkdownEvents(lines[..k + 1]) == MarkdownEvents(lines[..k]) + MarkdownEvent(lines[k])
  {
    hide MarkdownEvent;
    if k == 0 {
      assert lines[..1] == [lines[0]] && lines[..0] == [];
      assert MarkdownEvents([lines[0]]) == MarkdownEvent(lines[0]) + MarkdownEvents([lines[0]][1..]);
    } else {
      MarkdownEventsSnoc(lines[1..], k - 1);
      assert lines[..k + 1][1..] == lines[1..][..k] && lines[..k][1..] == lines[1..][..k - 1];
      Associative(MarkdownEvent(lines[0]), MarkdownEvents(lines[1..][..k - 1]), MarkdownEvent(lines[k]));
    }
  }

  method ParseMarkdown(lines: seq<Text>) returns (sections: seq<Section>)
    ensures sections == SectionsOf(MarkdownEvents(lines) + [Cut])
  {
    hide Chain, Pending, FirstPage, SectionsOf, Strip, RStrip;
    var builder := new SectionBuilder();
    for i := 0 to |lines|
      invariant builder.Valid() && fresh(builder)
      invariant builder.history == MarkdownEvents(lines[..i])
    {
      var line := lines[i];
      MarkdownEventsSnoc(lines, i);
      var heading := MarkdownHeading(line);
      if heading.Some? {
        builder.Heading(heading.value.level, heading.value.title, None);
      } else if Strip(line) != [] {
        builder.Body(RStrip(line), None);
      }
    }
    assert lines[..|lines|] == lines;
    sections := builder.Build();
  }
}
