// The paragraph loop as a packer (app/ingestion/chunking.py:69-90): it never
// uses more pieces than any other order-preserving grouping, and with overlap
// each new piece starts with the end of the one before.

module GreedyPacking {
  import opened Texts
  import opened Chunking
  import opened Conservation

  // ----- Groupings -----

  // A group of paragraphs as one piece: its paragraphs joined by newlines.
  function Joined(group: seq<Text>): Text {
    if group == [] then []
    else if |group| == 1 then group[0]
    else Joined(group[..|group| - 1]) + [Glyph('\n', -1)] + group[|group| - 1]
  }

  function Ungrouped(groups: seq<seq<Text>>): seq<Text> {
    if groups == [] then [] else groups[0] + Ungrouped(groups[1..])
  }

  function JoinedAll(groups: seq<seq<Text>>): (pieces: seq<Text>)
    ensures |pieces| == |groups|
  {
    if groups == [] then [] else [Joined(groups[0])] + JoinedAll(groups[1..])
  }

  ghost predicate Fits(paragraphs: seq<Text>, maxChars: nat) {
    forall i | 0 <= i < |paragraphs| :: 1 <= |paragraphs[i]| <= maxChars
  }

  // An order-preserving way to pack exactly these paragraphs into pieces of at most maxChars.
  ghost predicate Packing(groups: seq<seq<Text>>, paragraphs: seq<Text>, maxChars: nat) {
    Ungrouped(groups) == paragraphs && forall i | 0 <= i < |groups| :: |Joined(groups[i])| <= maxChars
  }

  // ----- The number of pieces depends only on the length of `current` -----

  function Joint(length: nat, paragraph: nat): nat {
    if length == 0 then paragraph else length + 1 + paragraph
  }

  // Pieces still to come when `current` has this length and overlap is 0.
  function Count(paragraphs: seq<Text>, length: nat, maxChars: nat): nat {
    if paragraphs == [] then (if length == 0 then 0 else 1)
    else
      var p := |paragraphs[0]|;
      if Joint(length, p) > maxChars then 1 + Count(paragraphs[1..], p, maxChars)
      else Count(paragraphs[1..], Joint(length, p), maxChars)
  }

  lemma {:induction false} PackCount(paragraphs: seq<Text>, current: Text, maxChars: nat)
    requires maxChars >= 1 && Fits(paragraphs, maxChars)
    ensures |PackParagraphs(paragraphs, current, maxChars, 0)| == Count(paragraphs, |current|, maxChars)
    decreases |paragraphs|
  {
    hide LongParagraphPieces;
    if paragraphs != [] {
      var p := paragraphs[0];
      var round := ParagraphRound(current, p, maxChars, 0);
      assert |JoinParagraph(current, p)| == Joint(|current|, |p|);
      PackCount(paragraphs[1..], round.current, maxChars);
    }
  }

  // A longer `current` never needs fewer pieces.
  lemma {:induction false} CountMonotone(paragraphs: seq<Text>, a: nat, b: nat, maxChars: nat)
    requires Fits(paragraphs, maxChars) && a <= b
    ensures Count(paragraphs, a, maxChars) <= Count(paragraphs, b, maxChars)
    decreases |paragraphs|
  {
    if paragraphs != [] {
      var p, rest := |paragraphs[0]|, paragraphs[1..];
      if Joint(b, p) <= maxChars {
        CountMonotone(rest, Joint(a, p), Joint(b, p), maxChars);
      } else if Joint(a, p) <= maxChars {
        CountSpread(rest, Joint(a, p), p, maxChars);
      }
    }
  }

  // Whatever `current` holds costs at most one piece more.
  lemma {:induction false} CountSpread(paragraphs: seq<Text>, a: nat, b: nat, maxChars: nat)
    requires Fits(paragraphs, maxChars)
    ensures Count(paragraphs, a, maxChars) <= 1 + Count(paragraphs, b, maxChars)
    decreases |paragraphs|
  {
    if paragraphs != [] {
      var p, rest := |paragraphs[0]|, paragraphs[1..];
      if Joint(a, p) <= maxChars {
        CountSpread(rest, Joint(a, p), if Joint(b, p) <= maxChars then Joint(b, p) else p, maxChars);
      } else if Joint(b, p) <= maxChars {
        CountMonotone(rest, p, Joint(b, p), maxChars);
      }
    }
  }

  lemma {:induction false} JoinedLength(group: seq<Text>, k: nat)
    requires k <= |group|
    ensures |Joined(group[..k])| <= |Joined(group)|
    decreases |group|
  {
    if k == |group| {
      assert group[..k] == group;
    } else {
      var init := group[..|group| - 1];
      JoinedLength(init, k);
      assert init[..k] == group[..k];
    }
  }

  lemma {:induction false} JoinedEmpty(open: seq<Text>, maxChars: nat)
    requires Fits(open, maxChars)
    ensures Joined(open) == [] <==> open == []
  {
  }

  // A group that fits in one piece is swallowed whole by an empty `current`.
  lemma {:induction false} CountSwallows(group: seq<Text>, k: nat, rest: seq<Text>, maxChars: nat)
    requires Fits(group + rest, maxChars) && |Joined(group)| <= maxChars && k <= |group|
    ensures Count(group[k..] + rest, |Joined(group[..k])|, maxChars) == Count(rest, |Joined(group)|, maxChars)
    decreases |group| - k
  {
    if k == |group| {
      assert group[k..] + rest == rest && group[..k] == group;
    } else {
      var todo, next := group[k..] + rest, group[..k + 1];
      CountSwallows(group, k + 1, rest, maxChars);
      JoinedLength(group, k + 1);
      assert todo[0] == group[k] == next[k] && todo[1..] == group[k + 1..] + rest;
      assert next[..k] == group[..k];
      assert Fits(group[..k], maxChars) by {
        assert forall i | 0 <= i < k :: group[..k][i] == (group + rest)[i];
      }
      JoinedEmpty(group[..k], maxChars);
      assert |Joined(next)| == Joint(|Joined(group[..k])|, |group[k]|);
      assert todo != [];
    }
  }

  lemma {:induction false} CountLeast(groups: seq<seq<Text>>, paragraphs: seq<Text>, maxChars: nat)
    requires Fits(paragraphs, maxChars) && Packing(groups, paragraphs, maxChars)
    ensures Count(paragraphs, 0, maxChars) <= |groups|
    decreases |groups|
  {
    if groups != [] {
      var group, rest := groups[0], Ungrouped(groups[1..]);
      assert Fits(rest, maxChars) by {
        assert forall i | 0 <= i < |rest| :: rest[i] == paragraphs[|group| + i];
      }
      CountLeast(groups[1..], rest, maxChars);
      CountSwallows(group, 0, rest, maxChars);
      assert group[0..] + rest == paragraphs && group[..0] == [];
      CountSpread(rest, |Joined(group)|, 0, maxChars);
    }
  }

  // ----- What the greedy loop builds is itself such a packing -----

  // The groups of the loop, the paragraphs of `current` being those of `open`.
  function Groups(paragraphs: seq<Text>, open: seq<Text>, maxChars: nat): seq<seq<Text>> {
    if paragraphs == [] then (if open == [] then [] else [open])
    else if |Joined(open + [paragraphs[0]])| > maxChars then
      [open] + Groups(paragraphs[1..], [paragraphs[0]], maxChars)
    else
      Groups(paragraphs[1..], open + [paragraphs[0]], maxChars)
  }

  lemma JoinedSnoc(open: seq<Text>, p: Text, maxChars: nat)
    requires Fits(open, maxChars)
    ensures Joined(open + [p]) == JoinParagraph(Joined(open), p)
  {
    JoinedEmpty(open, maxChars);
    assert (open + [p])[..|open|] == open;
  }

  lemma {:induction false} GroupsUngrouped(paragraphs: seq<Text>, open: seq<Text>, maxChars: nat)
    ensures Ungrouped(Groups(paragraphs, open, maxChars)) == open + paragraphs
    decreases |paragraphs|
  {
    if paragraphs == [] {
      assert open + [] == open;
      if open != [] {
        assert Ungrouped([open]) == open + Ungrouped([open][1..]);
      }
    } else {
      var p, rest := paragraphs[0], paragraphs[1..];
      assert paragraphs == [p] + rest;
      if |Joined(open + [p])| > maxChars {
        GroupsUngrouped(rest, [p], maxChars);
      } else {
        GroupsUngrouped(rest, open + [p], maxChars);
        Associative(open, [p], rest);
      }
    }
  }

  lemma {:induction false} GroupsFit(paragraphs: seq<Text>, open: seq<Text>, maxChars: nat)
    requires Fits(paragraphs, maxChars) && Fits(open, maxChars) && |Joined(open)| <= maxChars
    ensures forall i | 0 <= i < |Groups(paragraphs, open, maxChars)| ::
      |Joined(Groups(paragraphs, open, maxChars)[i])| <= maxChars
    decreases |paragraphs|
  {
    if paragraphs != [] {
      var p, rest := paragraphs[0], paragraphs[1..];
      JoinedSnoc([], p, maxChars);
      assert [] + [p] == [p];
      if |Joined(open + [p])| > maxChars {
        GroupsFit(rest, [p], maxChars);
      } else {
        GroupsFit(rest, open + [p], maxChars);
      }
    }
  }

  lemma {:induction false} PiecesAreGroups(paragraphs: seq<Text>, open: seq<Text>, maxChars: nat)
    requires maxChars >= 1 && Fits(paragraphs, maxChars) && Fits(open, maxChars)
    ensures PackParagraphs(paragraphs, Joined(open), maxChars, 0) == JoinedAll(Groups(paragraphs, open, maxChars))
    decreases |paragraphs|
  {
    hide LongParagraphPieces;
    JoinedEmpty(open, maxChars);
    if paragraphs == [] {
      if open != [] {
        assert JoinedAll([open]) == [Joined(open)] + JoinedAll([open][1..]);
      }
    } else {
      var p, rest := paragraphs[0], paragraphs[1..];
      JoinedSnoc(open, p, maxChars);
      JoinedSnoc([], p, maxChars);
      assert [] + [p] == [p];
      if |Joined(open + [p])| > maxChars {
        PiecesAreGroups(rest, [p], maxChars);
        var groups := Groups(rest, [p], maxChars);
        assert ([open] + groups)[1..] == groups;
      } else {
        PiecesAreGroups(rest, open + [p], maxChars);
      }
    }
  }

  // The main result: with overlap 0 and no paragraph over maxChars, the pieces
  // are an order-preserving packing of the paragraphs, and no such packing has fewer.
  lemma GreedyIsOptimal(paragraphs: seq<Text>, maxChars: nat)
    requires maxChars >= 1 && Fits(paragraphs, maxChars)
    ensures exists groups: seq<seq<Text>> ::
      Packing(groups, paragraphs, maxChars) && PackParagraphs(paragraphs, [], maxChars, 0) == JoinedAll(groups)
    ensures forall groups: seq<seq<Text>> | Packing(groups, paragraphs, maxChars) ::
      |PackParagraphs(paragraphs, [], maxChars, 0)| <= |groups|
  {
    var own := Groups(paragraphs, [], maxChars);
    GroupsUngrouped(paragraphs, [], maxChars);
    GroupsFit(paragraphs, [], maxChars);
    PiecesAreGroups(paragraphs, [], maxChars);
    assert [] + paragraphs == paragraphs;
    assert Packing(own, paragraphs, maxChars);
    PackCount(paragraphs, [], maxChars);
    forall groups: seq<seq<Text>> | Packing(groups, paragraphs, maxChars)
      ensures |PackParagraphs(paragraphs, [], maxChars, 0)| <= |groups|
    {
      CountLeast(groups, paragraphs, maxChars);
    }
  }

  // For a whole text: no packing of its paragraphs beats the chunker.
  lemma TextPiecesOptimal(text: Text, maxChars: nat, groups: seq<seq<Text>>)
    requires maxChars >= 1 && |text| > maxChars
    requires forall i | 0 <= i < |Paragraphs(text)| :: |Paragraphs(text)[i]| <= maxChars
    requires Packing(groups, Paragraphs(text), maxChars)
    ensures |TextPieces(text, maxChars, 0)| <= |groups|
  {
    var paragraphs := Paragraphs(text);
    ParagraphsKeepInk(text);
    assert Fits(paragraphs, maxChars) by {
      forall i | 0 <= i < |paragraphs| ensures 1 <= |paragraphs[i]| <= maxChars {
        assert !Blank(paragraphs[i]);
      }
    }
    GreedyIsOptimal(paragraphs, maxChars);
  }

  // ----- The overlap between consecutive pieces -----

  // `next` was started by `paragraph` after `piece` was closed: it starts with
  // the overlap tail of `piece` and the paragraph, or with the bare paragraph
  // exactly when that merge would be too long.
  ghost predicate Continues(piece: Text, next: Text, paragraph: Text, maxChars: nat, overlap: nat) {
    var tail := Tail(piece, overlap);
    if tail == [] || |tail| + 1 + |paragraph| > maxChars then paragraph <= next
    else tail + [NEWLINE] + paragraph <= next
  }

  // A piece only grows at its end.
  lemma {:induction false} FirstPieceExtends(paragraphs: seq<Text>, current: Text, maxChars: nat, overlap: nat)
    requires maxChars >= 1 && Fits(paragraphs, maxChars) && current != []
    ensures var pieces := PackParagraphs(paragraphs, current, maxChars, overlap);
      pieces != [] && current <= pieces[0]
    decreases |paragraphs|
  {
    hide LongParagraphPieces, Carry;
    if paragraphs != [] {
      var candidate := JoinParagraph(current, paragraphs[0]);
      if |candidate| <= maxChars {
        FirstPieceExtends(paragraphs[1..], candidate, maxChars, overlap);
      }
    }
  }

  // What packing does with its first paragraph when none is oversized.
  lemma FirstParagraph(paragraphs: seq<Text>, current: Text, maxChars: nat, overlap: nat)
    requires maxChars >= 1 && paragraphs != [] && |paragraphs[0]| <= maxChars
    ensures var p, rest := paragraphs[0], paragraphs[1..];
      PackParagraphs(paragraphs, current, maxChars, overlap) ==
        if |JoinParagraph(current, p)| <= maxChars
        then PackParagraphs(rest, JoinParagraph(current, p), maxChars, overlap)
        else [current] + PackParagraphs(rest, Carry(current, p, maxChars, overlap), maxChars, overlap)
  {
    hide LongParagraphPieces, Carry, JoinParagraph;
  }

  // Paragraph j closed piece i and starts the next one: the paragraphs before
  // it, packed alone, give the pieces up to i.
  ghost predicate ContinuesAt(
      paragraphs: seq<Text>, current: Text, maxChars: nat, overlap: nat, i: nat, j: nat)
    requires maxChars >= 1
  {
    var pieces := PackParagraphs(paragraphs, current, maxChars, overlap);
    && i + 1 < |pieces| && j < |paragraphs|
    && PackParagraphs(paragraphs[..j], current, maxChars, overlap) == pieces[..i + 1]
    && Continues(pieces[i], pieces[i + 1], paragraphs[j], maxChars, overlap)
  }

  lemma ContinuesLater(
      paragraphs: seq<Text>, current: Text, maxChars: nat, overlap: nat, closed: nat, next: Text, i: nat, j: nat)
    requires maxChars >= 1 && paragraphs != [] && |paragraphs[0]| <= maxChars
    requires var joined := JoinParagraph(current, paragraphs[0]);
      if |joined| <= maxChars then closed == 0 && next == joined
      else closed == 1 && next == Carry(current, paragraphs[0], maxChars, overlap)
    requires ContinuesAt(paragraphs[1..], next, maxChars, overlap, i, j)
    ensures ContinuesAt(paragraphs, current, maxChars, overlap, closed + i, j + 1)
  {
    hide PackParagraphs, JoinParagraph, Carry, Continues;
    var p, rest := paragraphs[0], paragraphs[1..];
    var start, later := paragraphs[..j + 1], PackParagraphs(rest, next, maxChars, overlap);
    assert start[0] == p && start[1..] == rest[..j];
    FirstParagraph(paragraphs, current, maxChars, overlap);
    FirstParagraph(start, current, maxChars, overlap);
    assert closed == 1 ==> ([current] + later)[..i + 2] == [current] + later[..i + 1];
  }

  lemma ContinuesFirst(paragraphs: seq<Text>, current: Text, maxChars: nat, overlap: nat)
    requires maxChars >= 1 && Fits(paragraphs, maxChars) && paragraphs != [] && current != []
    requires |JoinParagraph(current, paragraphs[0])| > maxChars
    ensures ContinuesAt(paragraphs, current, maxChars, overlap, 0, 0)
  {
    hide PackParagraphs, JoinParagraph, Carry, Continues;
    var p, rest := paragraphs[0], paragraphs[1..];
    var carry := Carry(current, p, maxChars, overlap);
    var later := PackParagraphs(rest, carry, maxChars, overlap);
    assert paragraphs[..0] == [];
    PackNothing(current, maxChars, overlap);
    FirstParagraph(paragraphs, current, maxChars, overlap);
    CarryIsNotEmpty(current, p, maxChars, overlap);
    FirstPieceExtends(rest, carry, maxChars, overlap);
    CarryContinues(current, later[0], p, maxChars, overlap);
    assert ([current] + later)[..1] == [current];
  }

  // Each next piece continues the one before it.
  lemma {:induction false} PiecesContinue(
      paragraphs: seq<Text>, current: Text, maxChars: nat, overlap: nat, i: nat) returns (j: nat)
    requires maxChars >= 1 && Fits(paragraphs, maxChars)
    requires i + 1 < |PackParagraphs(paragraphs, current, maxChars, overlap)|
    ensures ContinuesAt(paragraphs, current, maxChars, overlap, i, j)
    decreases |paragraphs|
  {
    hide PackParagraphs, Continues, Carry, ContinuesAt;
    PackNothing(current, maxChars, overlap);
    assert paragraphs != [];
    var p, rest := paragraphs[0], paragraphs[1..];
    FirstParagraph(paragraphs, current, maxChars, overlap);
    assert current == [] ==> JoinParagraph(current, p) == p;
    hide JoinParagraph;
    if |JoinParagraph(current, p)| <= maxChars {
      var k := PiecesContinue(rest, JoinParagraph(current, p), maxChars, overlap, i);
      ContinuesLater(paragraphs, current, maxChars, overlap, 0, JoinParagraph(current, p), i, k);
      j := k + 1;
    } else if i == 0 {
      ContinuesFirst(paragraphs, current, maxChars, overlap);
      j := 0;
    } else {
      var carry := Carry(current, p, maxChars, overlap);
      var k := PiecesContinue(rest, carry, maxChars, overlap, i - 1);
      ContinuesLater(paragraphs, current, maxChars, overlap, 1, carry, i - 1, k);
      j := k + 1;
    }
  }

  lemma CarryIsNotEmpty(piece: Text, paragraph: Text, maxChars: nat, overlap: nat)
    requires paragraph != []
    ensures Carry(piece, paragraph, maxChars, overlap) != []
  {
  }

  lemma CarryContinues(piece: Text, next: Text, paragraph: Text, maxChars: nat, overlap: nat)
    requires |paragraph| <= maxChars
    requires Carry(piece, paragraph, maxChars, overlap) <= next
    ensures Continues(piece, next, paragraph, maxChars, overlap)
  {
  }
}
