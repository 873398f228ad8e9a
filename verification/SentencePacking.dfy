// The sentence loop as a packer (app/ingestion/chunking.py:93-110): which
// sentences a piece holds, how they are put together, where the windows of
// oversized ones go, and that no other packing has fewer pieces.

module SentencePacking {
  import opened Texts
  import opened Chunking
  import opened GreedyPacking
  import opened TextCuts

  // ----- Stripping what was stripped before -----

  lemma {:induction false} RStripConcat(a: Text, t: Text)
    ensures RStrip(a + t) == if RStrip(t) == [] then RStrip(a) else a + RStrip(t)
    decreases |t|
  {
    if t == [] {
      assert a + t == a;
    } else {
      var init := t[..|t| - 1];
      assert (a + t)[|a + t| - 1] == t[|t| - 1] && (a + t)[..|a + t| - 1] == a + init;
      RStripConcat(a, init);
    }
  }

  lemma {:induction false} LStripConcat(a: Text, t: Text)
    requires Blank(a)
    ensures LStrip(a + t) == LStrip(t)
  {
    if a == [] {
      assert a + t == t;
    } else {
      assert (a + t)[0] == a[0] && (a + t)[1..] == a[1..] + t;
      assert forall i | 0 <= i < |a[1..]| :: a[1..][i] == a[i + 1];
      LStripConcat(a[1..], t);
    }
  }

  lemma {:induction false} RStripOfBlank(t: Text)
    requires Blank(t)
    ensures RStrip(t) == []
  {
    if t != [] {
      RStripOfBlank(t[..|t| - 1]);
    }
  }

  lemma StripFront(a: Text, t: Text)
    requires Blank(a)
    ensures Strip(a + t) == Strip(t)
  {
    RStripConcat(a, t);
    RStripOfBlank(a);
    if RStrip(t) != [] {
      LStripConcat(a, RStrip(t));
    }
  }

  // Stripping a text first changes nothing about the stripped whole.
  lemma StripAgain(x: Text, more: Text)
    requires EndsInInk(x)
    ensures Strip(Strip(x) + more) == Strip(x + more)
  {
    assert RStrip(x) == x;
    assert Strip(x) == LStrip(x);
    hide LStrip, RStrip, Strip, IsSpace;
    LStripDropsBlank(x);
    var n := |x| - |LStrip(x)|;
    StripFront(x[..n], LStrip(x) + more);
    assert x[..n] + (LStrip(x) + more) == x + more;
  }

  // ----- What a piece holds -----

  // Sentences with one space between each two.
  function Spaced(group: seq<Text>): Text {
    if group == [] then []
    else if |group| == 1 then group[0]
    else Spaced(group[..|group| - 1]) + [Glyph(' ', -1)] + group[|group| - 1]
  }

  // A sentence alone is taken as it is.
  function Piece(group: seq<Text>): Text {
    if |group| <= 1 then Spaced(group) else Strip(Spaced(group))
  }

  function PiecesOf(groups: seq<seq<Text>>): (pieces: seq<Text>)
    ensures |pieces| == |groups|
  {
    if groups == [] then [] else [Piece(groups[0])] + PiecesOf(groups[1..])
  }

  ghost predicate AllEndInInk(group: seq<Text>) {
    forall i | 0 <= i < |group| :: EndsInInk(group[i])
  }

  lemma {:induction false} SpacedEndsInInk(group: seq<Text>)
    requires group != [] && AllEndInInk(group)
    ensures EndsInInk(Spaced(group))
  {
    assert EndsInInk(group[|group| - 1]);
  }

  lemma PieceSnoc(open: seq<Text>, sentence: Text)
    requires AllEndInInk(open)
    ensures Piece(open + [sentence]) == JoinSentence(Piece(open), sentence)
  {
    var all := open + [sentence];
    if open != [] {
      assert all[..|all| - 1] == open;
      SpacedEndsInInk(open);
      var x := Spaced(open);
      assert Spaced(all) == x + [SPACE] + sentence;
      hide Spaced;
      StripAgain(x, [SPACE] + sentence);
      Associative(x, [SPACE], sentence);
      Associative(Strip(x), [SPACE], sentence);
      StripFacts(x);
      hide Strip;
    }
  }

  // The sentences of the open piece, and those still to come.
  function SentenceGroups(sentences: seq<Text>, open: seq<Text>, maxChars: nat): seq<seq<Text>> {
    if sentences == [] then (if open == [] then [] else [open])
    else if |Piece(open + [sentences[0]])| > maxChars then
      [open] + SentenceGroups(sentences[1..], [sentences[0]], maxChars)
    else
      SentenceGroups(sentences[1..], open + [sentences[0]], maxChars)
  }

  // In order and none left out, each piece as long as it can be.
  ghost predicate Greedy(groups: seq<seq<Text>>, sentences: seq<Text>, maxChars: nat) {
    && Ungrouped(groups) == sentences
    && (forall i | 0 <= i < |groups| :: groups[i] != [] && |Piece(groups[i])| <= maxChars)
    && (forall i | 0 <= i < |groups| - 1 ::
          groups[i + 1] != [] ==> |Piece(groups[i] + [groups[i + 1][0]])| > maxChars)
  }

  lemma PieceOfOne(sentence: Text)
    ensures Piece([sentence]) == sentence && [] + [sentence] == [sentence]
  {
  }

  lemma OneGroup(open: seq<Text>)
    ensures Ungrouped([open]) == open && PiecesOf([open]) == [Piece(open)]
  {
    assert [open][1..] == [];
  }

  lemma {:induction false} GroupsAreGreedy(sentences: seq<Text>, open: seq<Text>, maxChars: nat)
    requires open != [] && |Piece(open)| <= maxChars
    requires forall i | 0 <= i < |sentences| :: |sentences[i]| <= maxChars
    ensures var groups := SentenceGroups(sentences, open, maxChars);
      Greedy(groups, open + sentences, maxChars) && groups != [] && open <= groups[0]
    decreases |sentences|
  {
    hide Piece;
    if sentences == [] {
      OneGroup(open);
      assert open + [] == open;
    } else {
      var s, rest := sentences[0], sentences[1..];
      assert sentences == [s] + rest;
      PieceOfOne(s);
      Associative(open, [s], rest);
      if |Piece(open + [s])| > maxChars {
        GroupsAreGreedy(rest, [s], maxChars);
        var later := SentenceGroups(rest, [s], maxChars);
        hide SentenceGroups;
        assert later[0][0] == s;
        GreedyFirst(open, later, [s] + rest, maxChars);
      } else {
        GroupsAreGreedy(rest, open + [s], maxChars);
      }
    }
  }

  lemma GreedyFirst(open: seq<Text>, later: seq<seq<Text>>, sentences: seq<Text>, maxChars: nat)
    requires open != [] && |Piece(open)| <= maxChars && Greedy(later, sentences, maxChars)
    requires later != [] && later[0] != [] && |Piece(open + [later[0][0]])| > maxChars
    ensures Greedy([open] + later, open + sentences, maxChars)
  {
    hide Piece;
    var groups := [open] + later;
    assert groups[1..] == later;
    forall i | 0 <= i < |groups| - 1 && groups[i + 1] != []
      ensures |Piece(groups[i] + [groups[i + 1][0]])| > maxChars
    {
      assert i > 0 ==> groups[i] == later[i - 1];
    }
  }

  // Only a sentence with text in it starts a new piece.
  lemma JoinNothing(current: Text, maxChars: nat)
    requires |current| <= maxChars
    ensures |JoinSentence(current, [])| <= maxChars
  {
    if current != [] {
      assert current + [SPACE] + [] == current + [SPACE];
      assert [SPACE][..0] == [];
      assert RStrip([SPACE]) == [];
      RStripConcat(current, [SPACE]);
      LStripDropsBlank(RStrip(current));
    }
  }

  lemma PieceIsNotEmpty(open: seq<Text>, sentence: Text)
    requires open != [] && AllEndInInk(open)
    ensures Piece(open) != [] && Piece(open + [sentence]) != []
  {
    SpacedEndsInInk(open);
    var x, all := Spaced(open), open + [sentence];
    assert all[..|all| - 1] == open;
    var whole := x + [Glyph(' ', -1)] + sentence;
    assert Spaced(all) == whole;
    hide Spaced;
    assert whole[|x| - 1] == x[|x| - 1];
    StripFacts(x);
    StripFacts(whole);
    hide Strip;
  }

  // ----- Where the windows of oversized sentences go -----

  // What the windows leave of each sentence, and the windows.
  function Rests(sentences: seq<Text>, maxChars: nat, overlap: nat): (rests: seq<Text>)
    requires maxChars >= 1
    ensures |rests| == |sentences|
    ensures forall i | 0 <= i < |rests| :: rests[i] == WindowRest(sentences[i], maxChars, overlap)
  {
    seq(|sentences|, i requires 0 <= i < |sentences| => WindowRest(sentences[i], maxChars, overlap))
  }

  function CutOff(sentences: seq<Text>, maxChars: nat, overlap: nat): (windows: seq<seq<Text>>)
    requires maxChars >= 1
    ensures |windows| == |sentences|
    ensures forall i | 0 <= i < |windows| :: windows[i] == Windows(sentences[i], maxChars, overlap)
  {
    seq(|sentences|, i requires 0 <= i < |sentences| => Windows(sentences[i], maxChars, overlap))
  }

  ghost predicate Layable(groups: seq<seq<Text>>, held: nat, windows: seq<seq<Text>>) {
    && groups != [] && (forall i | 0 <= i < |groups| :: groups[i] != [])
    && held <= |groups[0]| && held + |windows| == |Ungrouped(groups)|
  }

  // The pieces of these groups, each after the windows of its own sentences but
  // the first `held`, and after those of the sentence that starts the next group.
  ghost function Layout(groups: seq<seq<Text>>, held: nat, windows: seq<seq<Text>>): seq<Text>
    requires Layable(groups, held, windows)
    decreases |groups|
  {
    if |groups| == 1 then Ungrouped(windows) + [Piece(groups[0])]
    else
      var n := |groups[0]| - held + 1;
      NextGroup(groups);
      Ungrouped(windows[..n]) + [Piece(groups[0])] + Layout(groups[1..], 1, windows[n..])
  }

  lemma NextGroup(groups: seq<seq<Text>>)
    requires |groups| >= 2
    ensures |Ungrouped(groups)| == |groups[0]| + |Ungrouped(groups[1..])|
    ensures |Ungrouped(groups[1..])| >= |groups[1]|
  {
  }

  lemma UngroupedFirst(list: seq<Text>, lists: seq<seq<Text>>)
    ensures Ungrouped([list] + lists) == list + Ungrouped(lists)
  {
    assert ([list] + lists)[1..] == lists;
  }

  // A group that closes, and one that takes in one more sentence.
  lemma LayoutCloses(open: seq<Text>, later: seq<seq<Text>>, window: seq<Text>, windows: seq<seq<Text>>)
    requires open != [] && Layable(later, 1, windows)
    ensures Layable([open] + later, |open|, [window] + windows)
    ensures Layout([open] + later, |open|, [window] + windows) == window + [Piece(open)] + Layout(later, 1, windows)
  {
    hide Piece;
    var groups, all := [open] + later, [window] + windows;
    assert groups[1..] == later && all[..1] == [window] && all[1..] == windows;
    UngroupedFirst(open, later);
    UngroupedFirst(window, []);
    assert [window] + [] == [window] && window + [] == window;
  }

  lemma LayoutGrows(groups: seq<seq<Text>>, held: nat, window: seq<Text>, windows: seq<seq<Text>>)
    requires Layable(groups, held + 1, windows)
    ensures Layable(groups, held, [window] + windows)
    ensures Layout(groups, held, [window] + windows) == window + Layout(groups, held + 1, windows)
  {
    hide Piece;
    var all := [window] + windows;
    UngroupedFirst(window, windows);
    var piece := [Piece(groups[0])];
    if |groups| == 1 {
      Associative(window, Ungrouped(windows), piece);
    } else {
      NextGroup(groups);
      var n := |groups[0]| - held;
      assert all[..n + 1] == [window] + windows[..n] && all[n + 1..] == windows[n..];
      UngroupedFirst(window, windows[..n]);
      var later := Layout(groups[1..], 1, windows[n..]);
      hide Layout;
      Associative(window, Ungrouped(windows[..n]), piece);
      Associative(window, Ungrouped(windows[..n]) + piece, later);
    }
  }

  lemma LayoutEnds(open: seq<Text>)
    requires open != []
    ensures Layable([open], |open|, []) && Layout([open], |open|, []) == [Piece(open)]
  {
    OneGroup(open);
  }

  lemma {:induction false} RestEndsInInk(sentence: Text, maxChars: nat, overlap: nat)
    requires maxChars >= 1 && EndsInInk(sentence)
    ensures EndsInInk(WindowRest(sentence, maxChars, overlap))
    decreases |sentence|
  {
    if |sentence| > maxChars {
      RestEndsInInk(sentence[Step(maxChars, overlap)..], maxChars, overlap);
    }
  }

  lemma RestsOfMore(sentences: seq<Text>, maxChars: nat, overlap: nat)
    requires maxChars >= 1 && sentences != []
    ensures Rests(sentences, maxChars, overlap)
         == [WindowRest(sentences[0], maxChars, overlap)] + Rests(sentences[1..], maxChars, overlap)
    ensures CutOff(sentences, maxChars, overlap)
         == [Windows(sentences[0], maxChars, overlap)] + CutOff(sentences[1..], maxChars, overlap)
  {
    hide WindowRest, Windows;
  }

  lemma PackFirst(sentences: seq<Text>, current: Text, maxChars: nat, overlap: nat)
    requires maxChars >= 1 && sentences != []
    ensures var rest := WindowRest(sentences[0], maxChars, overlap);
      var windows, candidate := Windows(sentences[0], maxChars, overlap), JoinSentence(current, rest);
      PackSentences(sentences, current, maxChars, overlap) ==
        if |candidate| > maxChars
        then windows + [current] + PackSentences(sentences[1..], rest, maxChars, overlap)
        else windows + PackSentences(sentences[1..], candidate, maxChars, overlap)
  {
    hide Windows, WindowRest, JoinSentence;
  }

  ghost predicate InkBeforeLast(sentences: seq<Text>) {
    forall i | 0 <= i < |sentences| - 1 :: EndsInInk(sentences[i])
  }

  lemma MoreInkBeforeLast(sentences: seq<Text>)
    requires sentences != [] && InkBeforeLast(sentences)
    ensures InkBeforeLast(sentences[1..])
    ensures sentences[1..] != [] ==> EndsInInk(sentences[0])
  {
    hide EndsInInk;
  }

  // The loop from an open piece on.
  lemma {:induction false} PiecesAreLaidOut(sentences: seq<Text>, open: seq<Text>, maxChars: nat, overlap: nat)
    requires maxChars >= 1 && open != [] && 1 <= |Piece(open)| <= maxChars
    requires sentences != [] ==> AllEndInInk(open)
    requires InkBeforeLast(sentences)
    ensures var groups := SentenceGroups(Rests(sentences, maxChars, overlap), open, maxChars);
      && Layable(groups, |open|, CutOff(sentences, maxChars, overlap))
      && PackSentences(sentences, Piece(open), maxChars, overlap)
         == Layout(groups, |open|, CutOff(sentences, maxChars, overlap))
    decreases |sentences|
  {
    hide Piece, PackSentences, JoinSentence, Windows, WindowRest, Layout, Layable, EndsInInk, InkBeforeLast;
    if sentences == [] {
      LayoutEnds(open);
      NothingToPack(Piece(open), maxChars, overlap);
    } else {
      var u, later := WindowRest(sentences[0], maxChars, overlap), sentences[1..];
      var window, windows := Windows(sentences[0], maxChars, overlap), CutOff(later, maxChars, overlap);
      RestsOfMore(sentences, maxChars, overlap);
      PackFirst(sentences, Piece(open), maxChars, overlap);
      PieceSnoc(open, u);
      PieceOfOne(u);
      PieceIsNotEmpty(open, u);
      JoinNothing(Piece(open), maxChars);
      MoreInkBeforeLast(sentences);
      if later != [] {
        RestEndsInInk(sentences[0], maxChars, overlap);
      }
      var rests := Rests(later, maxChars, overlap);
      assert ([u] + rests)[0] == u && ([u] + rests)[1..] == rests;
      if |Piece(open + [u])| > maxChars {
        PiecesAreLaidOut(later, [u], maxChars, overlap);
        LayoutCloses(open, SentenceGroups(rests, [u], maxChars), window, windows);
      } else {
        PiecesAreLaidOut(later, open + [u], maxChars, overlap);
        LayoutGrows(SentenceGroups(rests, open + [u], maxChars), |open|, window, windows);
      }
    }
  }

  lemma NothingToPack(current: Text, maxChars: nat, overlap: nat)
    requires maxChars >= 1 && current != []
    ensures PackSentences([], current, maxChars, overlap) == [current]
  {
  }

  // The sentences of a paragraph but the last end in ink.
  lemma SentencesEndInInk(paragraph: Text)
    requires paragraph != []
    ensures var ss := Sentences(paragraph);
      ss != [] && ss[0] != [] && InkBeforeLast(ss)
  {
    SentenceShape([], paragraph);
  }

  lemma GroupsFromNothing(sentences: seq<Text>, maxChars: nat)
    requires sentences != [] && |sentences[0]| <= maxChars
    ensures SentenceGroups(sentences, [], maxChars) == SentenceGroups(sentences[1..], [sentences[0]], maxChars)
  {
    PieceOfOne(sentences[0]);
  }

  lemma SentencesAreLaidOut(ss: seq<Text>, maxChars: nat, overlap: nat) returns (groups: seq<seq<Text>>)
    requires maxChars >= 1 && ss != [] && ss[0] != [] && InkBeforeLast(ss)
    ensures groups == SentenceGroups(Rests(ss, maxChars, overlap), [], maxChars)
    ensures Greedy(groups, Rests(ss, maxChars, overlap), maxChars)
    ensures Layable(groups, 1, CutOff(ss[1..], maxChars, overlap))
    ensures PackSentences(ss, [], maxChars, overlap)
         == Windows(ss[0], maxChars, overlap) + Layout(groups, 1, CutOff(ss[1..], maxChars, overlap))
  {
    hide Piece, PackSentences, JoinSentence, Windows, WindowRest, Layout, Layable, Greedy, SentenceGroups,
      EndsInInk, InkBeforeLast;
    var first, later := WindowRest(ss[0], maxChars, overlap), ss[1..];
    var rests := Rests(ss, maxChars, overlap);
    RestsOfMore(ss, maxChars, overlap);
    groups := SentenceGroups(rests, [], maxChars);
    GroupsFromNothing(rests, maxChars);
    PieceOfOne(first);
    GroupsAreGreedy(rests[1..], [first], maxChars);
    assert [first] + rests[1..] == rests;
    assert rests[1..] == Rests(later, maxChars, overlap);
    PackFirst(ss, [], maxChars, overlap);
    JoinsNothing(first);
    MoreInkBeforeLast(ss);
    if later != [] {
      RestEndsInInk(ss[0], maxChars, overlap);
    }
    PiecesAreLaidOut(later, [first], maxChars, overlap);
  }

  // The pieces of a paragraph, but for the windows of oversized sentences: each
  // is the next few sentences, or what the windows leave of them, with one
  // space in between, stripped if there are several, and takes in as many as fit.
  // The windows come before the piece that is open when their sentence is read.
  lemma PiecesAreSentences(paragraph: Text, maxChars: nat, overlap: nat) returns (groups: seq<seq<Text>>)
    requires maxChars >= 1 && paragraph != []
    ensures var ss := Sentences(paragraph);
      && ss != [] && Greedy(groups, Rests(ss, maxChars, overlap), maxChars)
      && Layable(groups, 1, CutOff(ss[1..], maxChars, overlap))
      && LongParagraphPieces(paragraph, maxChars, overlap)
         == Windows(ss[0], maxChars, overlap) + Layout(groups, 1, CutOff(ss[1..], maxChars, overlap))
    ensures groups == SentenceGroups(Rests(Sentences(paragraph), maxChars, overlap), [], maxChars)
  {
    hide Sentences, PackSentences, Windows, Layout, Layable, Greedy, SentenceGroups, InkBeforeLast, Rests, CutOff;
    SentencesEndInInk(paragraph);
    groups := SentencesAreLaidOut(Sentences(paragraph), maxChars, overlap);
  }

  lemma JoinsNothing(sentence: Text)
    ensures JoinSentence([], sentence) == sentence
  {
  }

  // Without an oversized sentence that is all there is.
  lemma {:induction false} LayoutWithoutWindows(groups: seq<seq<Text>>, held: nat, windows: seq<seq<Text>>)
    requires Layable(groups, held, windows) && forall i | 0 <= i < |windows| :: windows[i] == []
    ensures Layout(groups, held, windows) == PiecesOf(groups)
    decreases |groups|
  {
    hide Piece;
    if |groups| == 1 {
      UngroupedNothing(windows);
      assert PiecesOf(groups[1..]) == [];
    } else {
      NextGroup(groups);
      var n := |groups[0]| - held + 1;
      UngroupedNothing(windows[..n]);
      LayoutWithoutWindows(groups[1..], 1, windows[n..]);
    }
  }

  lemma {:induction false} UngroupedNothing(lists: seq<seq<Text>>)
    requires forall i | 0 <= i < |lists| :: lists[i] == []
    ensures Ungrouped(lists) == []
  {
    if lists != [] {
      UngroupedNothing(lists[1..]);
    }
  }

  lemma PiecesAreWholeSentences(paragraph: Text, maxChars: nat, overlap: nat) returns (groups: seq<seq<Text>>)
    requires maxChars >= 1 && paragraph != []
    requires forall i | 0 <= i < |Sentences(paragraph)| :: |Sentences(paragraph)[i]| <= maxChars
    ensures Greedy(groups, Sentences(paragraph), maxChars)
    ensures LongParagraphPieces(paragraph, maxChars, overlap) == PiecesOf(groups)
  {
    hide Sentences, Piece, Layout, Layable, Greedy, SentenceGroups;
    var ss := Sentences(paragraph);
    groups := PiecesAreSentences(paragraph, maxChars, overlap);
    assert Rests(ss, maxChars, overlap) == ss;
    LayoutWithoutWindows(groups, 1, CutOff(ss[1..], maxChars, overlap));
    assert [] + PiecesOf(groups) == PiecesOf(groups);
  }

  // ----- Shorter groups have shorter pieces -----

  lemma {:induction false} LStripLonger(u: Text, v: Text)
    ensures |LStrip(v)| <= |LStrip(u + v)|
  {
    if u == [] {
      assert u + v == v;
    } else if IsSpace(u[0].ch) {
      assert (u + v)[0] == u[0] && (u + v)[1..] == u[1..] + v;
      LStripLonger(u[1..], v);
    } else {
      assert (u + v)[0] == u[0];
      LStripDropsBlank(v);
    }
  }

  lemma {:induction false} LStripPrefix(u: Text, v: Text)
    ensures |LStrip(u)| <= |LStrip(u + v)|
  {
    if u != [] {
      assert (u + v)[0] == u[0] && (u + v)[1..] == u[1..] + v;
      LStripPrefix(u[1..], v);
    }
  }

  // What is left of a part is no longer than what is left of the whole.
  lemma StripOfParts(u: Text, v: Text)
    ensures |Strip(u)| <= |Strip(u + v)| && |Strip(v)| <= |Strip(u + v)|
  {
    hide LStrip, RStrip, IsSpace;
    RStripConcat(u, v);
    var p, r := RStrip(u), RStrip(v);
    if r == [] {
      LStripDropsBlank(r);
    } else {
      LStripLonger(u, r);
      LStripPrefix(p, u[|p|..] + r);
      assert p + (u[|p|..] + r) == u + r;
    }
  }

  lemma {:induction false} SpacedConcat(a: seq<Text>, b: seq<Text>)
    requires a != [] && b != []
    ensures Spaced(a + b) == Spaced(a) + [Glyph(' ', -1)] + Spaced(b)
    decreases |b|
  {
    var all := a + b;
    assert all[|all| - 1] == b[|b| - 1];
    if |b| == 1 {
      assert all[..|all| - 1] == a;
    } else {
      assert all[..|all| - 1] == a + b[..|b| - 1];
      SpacedConcat(a, b[..|b| - 1]);
      var space, last := [Glyph(' ', -1)], b[|b| - 1];
      Associative(Spaced(a) + space, Spaced(b[..|b| - 1]), space);
      Associative(Spaced(a) + space, Spaced(b[..|b| - 1]) + space, last);
    }
  }

  // Of a group that fits in one piece every part of at least two sentences does.
  lemma PartsFit(a: seq<Text>, b: seq<Text>)
    requires a != [] && b != []
    ensures |a| >= 2 ==> |Piece(a)| <= |Piece(a + b)|
    ensures |b| >= 2 ==> |Piece(b)| <= |Piece(a + b)|
  {
    SpacedConcat(a, b);
    hide Spaced, Strip;
    var space := [Glyph(' ', -1)];
    StripOfParts(Spaced(a), space + Spaced(b));
    StripOfParts(Spaced(a) + space, Spaced(b));
    Associative(Spaced(a), space, Spaced(b));
  }

  // ----- How many pieces -----

  ghost predicate NoneOversized(sentences: seq<Text>, maxChars: nat) {
    forall i | 0 <= i < |sentences| :: |sentences[i]| <= maxChars
  }

  lemma SuffixFits(x: seq<Text>, y: seq<Text>, s: Text)
    requires y != []
    ensures |Piece(y + [s])| <= |Piece(x + y + [s])|
  {
    hide Piece;
    if x == [] {
      assert x + y == y;
    } else {
      PartsFit(x, y + [s]);
      Associative(x, y, [s]);
    }
  }

  lemma GroupsStep(sentences: seq<Text>, open: seq<Text>, maxChars: nat)
    requires sentences != []
    ensures var s, rest := sentences[0], sentences[1..];
      |SentenceGroups(sentences, open, maxChars)| ==
        if |Piece(open + [s])| > maxChars then 1 + |SentenceGroups(rest, [s], maxChars)|
        else |SentenceGroups(rest, open + [s], maxChars)|
  {
    hide Piece;
  }

  // A longer open group never needs fewer pieces, and at most one more.
  lemma {:induction false} LongerOpenGroup(sentences: seq<Text>, x: seq<Text>, y: seq<Text>, maxChars: nat)
    requires y != []
    ensures |SentenceGroups(sentences, y, maxChars)| <= |SentenceGroups(sentences, x + y, maxChars)|
    ensures |SentenceGroups(sentences, x + y, maxChars)| <= 1 + |SentenceGroups(sentences, y, maxChars)|
    decreases |sentences|
  {
    hide Piece;
    if sentences != [] {
      hide SentenceGroups;
      var s, rest := sentences[0], sentences[1..];
      GroupsStep(sentences, y, maxChars);
      GroupsStep(sentences, x + y, maxChars);
      SuffixFits(x, y, s);
      Associative(x, y, [s]);
      LongerOpenGroup(rest, x, y + [s], maxChars);
      LongerOpenGroup(rest, y, [s], maxChars);
    }
  }

  // A group that fits in one piece is taken in whole.
  lemma {:induction false} GroupSwallowed(group: seq<Text>, k: nat, rest: seq<Text>, maxChars: nat)
    requires 1 <= k <= |group| && |Piece(group)| <= maxChars
    ensures |SentenceGroups(group[k..] + rest, group[..k], maxChars)| == |SentenceGroups(rest, group, maxChars)|
    decreases |group| - k
  {
    hide Piece, SentenceGroups;
    if k == |group| {
      assert group[k..] + rest == rest && group[..k] == group;
    } else {
      var todo := group[k..] + rest;
      assert todo[0] == group[k] && todo[1..] == group[k + 1..] + rest;
      assert group[..k] + [group[k]] == group[..k + 1];
      assert group[..k + 1] + group[k + 1..] == group;
      if k + 1 < |group| {
        PartsFit(group[..k + 1], group[k + 1..]);
      } else {
        assert group[..k + 1] == group;
      }
      GroupsStep(todo, group[..k], maxChars);
      GroupSwallowed(group, k + 1, rest, maxChars);
    }
  }

  // Starting anew costs at most one piece.
  lemma NewPiece(sentences: seq<Text>, open: seq<Text>, maxChars: nat)
    requires NoneOversized(sentences, maxChars) && open != []
    ensures |SentenceGroups(sentences, open, maxChars)| <= 1 + |SentenceGroups(sentences, [], maxChars)|
  {
    if sentences != [] {
      var s, rest := sentences[0], sentences[1..];
      PieceOfOne(s);
      hide Piece, SentenceGroups;
      GroupsStep(sentences, open, maxChars);
      GroupsStep(sentences, [], maxChars);
      LongerOpenGroup(rest, open, [s], maxChars);
    }
  }

  lemma {:induction false} FewestGroups(groups: seq<seq<Text>>, sentences: seq<Text>, maxChars: nat)
    requires Ungrouped(groups) == sentences && NoneOversized(sentences, maxChars)
    requires forall i | 0 <= i < |groups| :: |Piece(groups[i])| <= maxChars
    ensures |SentenceGroups(sentences, [], maxChars)| <= |groups|
    decreases |groups|
  {
    hide Piece;
    if groups != [] {
      var group, rest := groups[0], Ungrouped(groups[1..]);
      assert NoneOversized(rest, maxChars) by {
        assert forall i | 0 <= i < |rest| :: rest[i] == sentences[|group| + i];
      }
      assert group != [] ==> sentences[0] == group[0];
      FewestGroups(groups[1..], rest, maxChars);
      hide SentenceGroups, NoneOversized, Ungrouped;
      if group == [] {
        assert group + rest == rest;
      } else {
        FirstGroup(group, rest, maxChars);
        NewPiece(rest, group, maxChars);
      }
    }
  }

  lemma FirstGroup(group: seq<Text>, rest: seq<Text>, maxChars: nat)
    requires group != [] && |Piece(group)| <= maxChars && |group[0]| <= maxChars
    ensures |SentenceGroups(group + rest, [], maxChars)| == |SentenceGroups(rest, group, maxChars)|
  {
    var all := group + rest;
    assert all[0] == group[0] && all[1..] == group[1..] + rest && group[..1] == [group[0]];
    PieceOfOne(group[0]);
    GroupsStep(all, [], maxChars);
    GroupSwallowed(group, 1, rest, maxChars);
  }

  lemma {:induction false} LayoutLength(groups: seq<seq<Text>>, held: nat, windows: seq<seq<Text>>)
    requires Layable(groups, held, windows)
    ensures |Layout(groups, held, windows)| == |groups| + |Ungrouped(windows)|
    decreases |groups|
  {
    hide Piece;
    if |groups| > 1 {
      NextGroup(groups);
      var n := |groups[0]| - held + 1;
      LayoutLength(groups[1..], 1, windows[n..]);
      UngroupedConcat(windows[..n], windows[n..]);
      assert windows[..n] + windows[n..] == windows;
    }
  }

  lemma {:induction false} UngroupedConcat(a: seq<seq<Text>>, b: seq<seq<Text>>)
    ensures |Ungrouped(a + b)| == |Ungrouped(a)| + |Ungrouped(b)|
  {
    if a == [] {
      assert a + b == b;
    } else {
      assert (a + b)[0] == a[0] && (a + b)[1..] == a[1..] + b;
      UngroupedConcat(a[1..], b);
    }
  }

  // But for the windows, no other way to divide the sentences of a paragraph
  // needs fewer pieces.
  lemma FewestPieces(paragraph: Text, maxChars: nat, overlap: nat, groups: seq<seq<Text>>)
    requires maxChars >= 1 && paragraph != []
    requires Ungrouped(groups) == Rests(Sentences(paragraph), maxChars, overlap)
    requires forall i | 0 <= i < |groups| :: |Piece(groups[i])| <= maxChars
    ensures |LongParagraphPieces(paragraph, maxChars, overlap)|
         <= |groups| + |Ungrouped(CutOff(Sentences(paragraph), maxChars, overlap))|
  {
    hide Sentences, Piece, Layout, Layable, Greedy, SentenceGroups, Windows, WindowRest;
    var ss := Sentences(paragraph);
    var own := PiecesAreSentences(paragraph, maxChars, overlap);
    FewestGroups(groups, Rests(ss, maxChars, overlap), maxChars);
    RestsOfMore(ss, maxChars, overlap);
    UngroupedFirst(Windows(ss[0], maxChars, overlap), CutOff(ss[1..], maxChars, overlap));
    LayoutLength(own, 1, CutOff(ss[1..], maxChars, overlap));
  }
}
