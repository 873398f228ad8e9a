// Text as the ingestion code sees it, with provenance.
//
// A Python string is a sequence of characters. Here every character also
// carries the source position it was copied from, so that statements such as
// "each source character ends up in some chunk" can be made about positions
// rather than about letters that may repeat. No function of the chunker looks
// at `src`; module Provenance proves that.

module Texts {
  datatype Glyph = Glyph(ch: char, src: int)

  type Text = seq<Glyph>

  function Chars(t: Text): (s: string)
    ensures |s| == |t| && forall i | 0 <= i < |t| :: s[i] == t[i].ch
  {
    seq(|t|, i requires 0 <= i < |t| => t[i].ch)
  }

  // The separators that the packers put between paragraphs and sentences.
  // Both are whitespace, so they are never part of the ink of a text.
  const NEWLINE := Glyph('\n', -1)
  const SPACE := Glyph(' ', -1)

  // The characters for which str.isspace() holds; `\s` and str.strip() use the same set.
  predicate IsSpace(c: char) {
    || '\U{9}' <= c <= '\U{D}'
    || '\U{1C}' <= c <= '\U{20}'
    || c in {'\U{85}', '\U{A0}', '\U{1680}'}
    || '\U{2000}' <= c <= '\U{200A}'
    || c in {'\U{2028}', '\U{2029}', '\U{202F}', '\U{205F}', '\U{3000}'}
  }

  // The line boundaries of str.splitlines().
  predicate IsLineBreak(c: char)
    ensures IsLineBreak(c) ==> IsSpace(c)
  {
    || '\U{A}' <= c <= '\U{D}'
    || '\U{1C}' <= c <= '\U{1E}'
    || c in {'\U{85}', '\U{2028}', '\U{2029}'}
  }

  predicate IsSentenceEnd(c: char)
    ensures IsSentenceEnd(c) ==> !IsSpace(c)
  {
    c in {'.', '!', '?'}
  }

  predicate Blank(t: Text) {
    forall i | 0 <= i < |t| :: IsSpace(t[i].ch)
  }

  // ----- Ink: what is left of a text when its whitespace is erased -----

  function Ink(t: Text): Text {
    if t == [] then []
    else (if IsSpace(t[0].ch) then [] else [t[0]]) + Ink(t[1..])
  }

  function InkAll(pieces: seq<Text>): Text {
    if pieces == [] then [] else Ink(pieces[0]) + InkAll(pieces[1..])
  }

  lemma Associative<T>(a: seq<T>, b: seq<T>, c: seq<T>)
    ensures (a + b) + c == a + (b + c)
  {
  }

  // One step of an appending loop: what is done plus what is still to do stays the goal.
  lemma Absorb<T>(done: seq<T>, todo: seq<T>, added: seq<T>, rest: seq<T>, goal: seq<T>)
    requires done + todo == goal
    requires todo == added + rest
    ensures done + added + rest == goal
  {
    Associative(done, added, rest);
  }

  lemma {:induction false} InkOfConcat(a: Text, b: Text)
    ensures Ink(a + b) == Ink(a) + Ink(b)
  {
    if a == [] {
      assert a + b == b;
    } else {
      var first := if IsSpace(a[0].ch) then [] else [a[0]];
      assert Ink(a + b) == first + Ink(a[1..] + b) by {
        assert (a + b)[0] == a[0] && (a + b)[1..] == a[1..] + b;
      }
      InkOfConcat(a[1..], b);
      Associative(first, Ink(a[1..]), Ink(b));
    }
  }

  lemma {:induction false} InkAllOfConcat(a: seq<Text>, b: seq<Text>)
    ensures InkAll(a + b) == InkAll(a) + InkAll(b)
  {
    if a == [] {
      assert a + b == b;
    } else {
      assert InkAll(a + b) == Ink(a[0]) + InkAll(a[1..] + b) by {
        assert (a + b)[0] == a[0] && (a + b)[1..] == a[1..] + b;
      }
      InkAllOfConcat(a[1..], b);
      Associative(Ink(a[0]), InkAll(a[1..]), InkAll(b));
    }
  }

  lemma InkAllOfOne(p: Text)
    ensures InkAll([p]) == Ink(p)
  {
    assert InkAll([p]) == Ink(p) + InkAll([p][1..]);
  }

  lemma {:induction false} InkOfBlank(t: Text)
    ensures Blank(t) <==> Ink(t) == []
  {
    if t != [] {
      InkOfBlank(t[1..]);
      assert forall i | 1 <= i < |t| :: t[i] == t[1..][i - 1];
    }
  }

  lemma {:induction false} InkMembers(t: Text, g: Glyph)
    ensures g in Ink(t) <==> g in t && !IsSpace(g.ch)
  {
    if t != [] {
      InkMembers(t[1..], g);
      assert t == [t[0]] + t[1..];
    }
  }

  lemma InkOfSlice(t: Text, i: nat)
    requires i <= |t|
    ensures Ink(t) == Ink(t[..i]) + Ink(t[i..])
  {
    assert t == t[..i] + t[i..];
    InkOfConcat(t[..i], t[i..]);
  }

  // Text put together with a separator has the ink of its two parts.
  lemma InkOfJoin(a: Text, sep: Glyph, b: Text)
    requires IsSpace(sep.ch)
    ensures Ink(a + [sep] + b) == Ink(a) + Ink(b)
  {
    InkOfConcat(a + [sep], b);
    InkOfConcat(a, [sep]);
    InkOfBlank([sep]);
  }

  // ----- Source order -----

  ghost predicate Increasing(t: Text) {
    forall i, j | 0 <= i < j < |t| :: t[i].src < t[j].src
  }

  ghost predicate AllBefore(a: Text, b: Text) {
    forall i, j | 0 <= i < |a| && 0 <= j < |b| :: a[i].src < b[j].src
  }

  lemma IncreasingConcat(a: Text, b: Text)
    ensures Increasing(a + b) <==> Increasing(a) && Increasing(b) && AllBefore(a, b)
  {
    var t := a + b;
    if Increasing(t) {
      forall i, j | 0 <= i < j < |a| ensures a[i].src < a[j].src {
        assert t[i] == a[i] && t[j] == a[j];
      }
      forall i, j | 0 <= i < j < |b| ensures b[i].src < b[j].src {
        assert t[|a| + i] == b[i] && t[|a| + j] == b[j];
      }
      forall i, j | 0 <= i < |a| && 0 <= j < |b| ensures a[i].src < b[j].src {
        assert t[i] == a[i] && t[|a| + j] == b[j];
      }
    }
  }

  // Any part of an increasing text is increasing, also with the middle left out.
  lemma IncreasingParts(a: Text, b: Text, c: Text)
    requires Increasing(a + b + c)
    ensures Increasing(a) && Increasing(b) && Increasing(c)
    ensures Increasing(a + b) && Increasing(b + c) && Increasing(a + c)
  {
    IncreasingConcat(a + b, c);
    IncreasingConcat(a, b);
    assert AllBefore(a, c) by {
      assert forall i | 0 <= i < |a| :: (a + b)[i] == a[i];
    }
    assert AllBefore(b, c) by {
      assert forall i | 0 <= i < |b| :: (a + b)[|a| + i] == b[i];
    }
    IncreasingConcat(a, c);
    IncreasingConcat(b, c);
  }

  // ----- str.strip() -----

  function LStrip(t: Text): (r: Text)
    ensures r != [] ==> !IsSpace(r[0].ch)
  {
    if t != [] && IsSpace(t[0].ch) then LStrip(t[1..]) else t
  }

  function RStrip(t: Text): (r: Text)
    ensures r != [] ==> !IsSpace(r[|r| - 1].ch)
    ensures r <= t
  {
    if t != [] && IsSpace(t[|t| - 1].ch) then RStrip(t[..|t| - 1]) else t
  }

  function Strip(t: Text): Text {
    LStrip(RStrip(t))
  }

  lemma BlankConcat(a: Text, b: Text)
    ensures Blank(a + b) <==> Blank(a) && Blank(b)
  {
    assert forall i | 0 <= i < |a| :: (a + b)[i] == a[i];
    assert forall i | 0 <= i < |b| :: (a + b)[|a| + i] == b[i];
  }

  lemma {:induction false} LStripDropsBlank(t: Text)
    ensures var n := |t| - |LStrip(t)|; 0 <= n && LStrip(t) == t[n..] && Blank(t[..n])
  {
    if t != [] && IsSpace(t[0].ch) {
      LStripDropsBlank(t[1..]);
      var n := |t| - |LStrip(t)|;
      assert t[1..][n - 1..] == t[n..];
      assert t[..n] == [t[0]] + t[1..][..n - 1];
      BlankConcat([t[0]], t[1..][..n - 1]);
    } else {
      assert t == t[0..];
    }
  }

  lemma {:induction false} RStripDropsBlank(t: Text)
    ensures Blank(t[|RStrip(t)|..])
  {
    if t != [] && IsSpace(t[|t| - 1].ch) {
      var init, last := t[..|t| - 1], t[|t| - 1];
      RStripDropsBlank(init);
      assert t[|RStrip(t)|..] == init[|RStrip(t)|..] + [last];
      BlankConcat(init[|RStrip(t)|..], [last]);
    }
  }

  // Stripping shortens a text only by whitespace at its two ends.
  lemma StripIsSlice(t: Text) returns (i: nat, j: nat)
    ensures i <= j <= |t| && Strip(t) == t[i..j] && Blank(t[..i]) && Blank(t[j..])
  {
    var r := RStrip(t);
    RStripDropsBlank(t);
    LStripDropsBlank(r);
    i, j := |r| - |Strip(t)|, |r|;
    assert r[i..] == t[i..j] && r[..i] == t[..i];
  }

  lemma StripFacts(t: Text)
    ensures Ink(Strip(t)) == Ink(t)
    ensures |Strip(t)| <= |t|
    ensures Strip(t) == [] <==> Blank(t)
  {
    var i, j := StripIsSlice(t);
    assert t == t[..i] + Strip(t) + t[j..];
    InkOfConcat(t[..i] + Strip(t), t[j..]);
    InkOfConcat(t[..i], Strip(t));
    InkOfBlank(t[..i]);
    InkOfBlank(t[j..]);
    if Strip(t) == [] {
      BlankConcat(t[..i], t[j..]);
      assert t == t[..i] + t[j..];
    } else {
      assert t[i] == Strip(t)[0];
    }
  }

  // ----- Splitting on a separator -----

  // The three places where the chunker cuts text: at runs of two or more
  // newlines, at line boundaries, and at the whitespace after a sentence end.
  datatype Separator = ParagraphBreak | LineBreak | SentenceEnd

  function NewlineRun(t: Text): (n: nat)
    ensures n <= |t|
    ensures forall i | 0 <= i < n :: t[i].ch == '\n'
    ensures n < |t| ==> t[n].ch != '\n'
  {
    if t != [] && t[0].ch == '\n' then 1 + NewlineRun(t[1..]) else 0
  }

  function SpaceRun(t: Text): (n: nat)
    ensures n <= |t|
    ensures forall i | 0 <= i < n :: IsSpace(t[i].ch)
    ensures n < |t| ==> !IsSpace(t[n].ch)
  {
    if t != [] && IsSpace(t[0].ch) then 1 + SpaceRun(t[1..]) else 0
  }

  // Length of the separator at the head of `t`, or 0 if there is none;
  // `field` is the text since the previous separator.
  function SeparatorLength(sep: Separator, field: Text, t: Text): (n: nat)
    ensures n <= |t| && Blank(t[..n])
  {
    match sep
    case ParagraphBreak =>
      if NewlineRun(t) >= 2 then NewlineRun(t) else 0
    case LineBreak =>
      if t != [] && IsLineBreak(t[0].ch) then 1 else 0
    case SentenceEnd =>
      if field != [] && IsSentenceEnd(field[|field| - 1].ch) then SpaceRun(t) else 0
  }

  function SplitOn(sep: Separator, field: Text, t: Text): (fields: seq<Text>)
    ensures |fields| > 0
    decreases |t|
  {
    var n := SeparatorLength(sep, field, t);
    if t == [] then [field]
    else if n > 0 then [field] + SplitOn(sep, [], t[n..])
    else SplitOn(sep, field + [t[0]], t[1..])
  }

  // Splitting loses nothing but whitespace and keeps the order.
  lemma {:induction false} SplitKeepsInk(sep: Separator, field: Text, t: Text)
    ensures InkAll(SplitOn(sep, field, t)) == Ink(field) + Ink(t)
    decreases |t|
  {
    var n := SeparatorLength(sep, field, t);
    if t == [] {
      InkAllOfOne(field);
    } else if n > 0 {
      SplitKeepsInk(sep, [], t[n..]);
      InkOfSlice(t, n);
      InkOfBlank(t[..n]);
      InkAllOfConcat([field], SplitOn(sep, [], t[n..]));
      InkAllOfOne(field);
    } else {
      SplitKeepsInk(sep, field + [t[0]], t[1..]);
      InkOfConcat(field, [t[0]]);
      InkOfConcat([t[0]], t[1..]);
      assert t == [t[0]] + t[1..];
    }
  }

  // Every sentence but the last ends in a sentence end, and every sentence
  // but the first starts with ink (or is the empty rest of the paragraph).
  lemma {:induction false} SentenceShape(field: Text, t: Text)
    ensures var ss := SplitOn(SentenceEnd, field, t);
      && (forall k | 0 <= k < |ss| - 1 :: ss[k] != [] && !IsSpace(ss[k][|ss[k]| - 1].ch))
      && (forall k | 1 <= k < |ss| :: ss[k] != [] ==> !IsSpace(ss[k][0].ch))
      && (field != [] ==> ss[0] != [] && ss[0][0] == field[0])
      && (field == [] && t != [] ==> ss[0] != [] && ss[0][0] == t[0])
    decreases |t|
  {
    var n := SeparatorLength(SentenceEnd, field, t);
    if t == [] {
    } else if n > 0 {
      SentenceShape([], t[n..]);
      var rest := SplitOn(SentenceEnd, [], t[n..]);
      assert n < |t| ==> t[n..][0] == t[n];
    } else {
      SentenceShape(field + [t[0]], t[1..]);
    }
  }

  // ----- Keeping the fields that hold ink -----

  function NonBlank(ts: seq<Text>): seq<Text> {
    if ts == [] then []
    else (if Strip(ts[0]) != [] then [ts[0]] else []) + NonBlank(ts[1..])
  }

  function StripAll(ts: seq<Text>): seq<Text> {
    if ts == [] then [] else [Strip(ts[0])] + StripAll(ts[1..])
  }

  ghost predicate AllInked(ts: seq<Text>) {
    forall i | 0 <= i < |ts| :: !Blank(ts[i])
  }

  lemma {:induction false} NonBlankFacts(ts: seq<Text>)
    ensures InkAll(NonBlank(ts)) == InkAll(ts)
    ensures AllInked(NonBlank(ts))
  {
    if ts != [] {
      var rest := NonBlank(ts[1..]);
      NonBlankFacts(ts[1..]);
      StripFacts(ts[0]);
      if Strip(ts[0]) != [] {
        assert NonBlank(ts) == [ts[0]] + rest;
        assert InkAll([ts[0]] + rest) == Ink(ts[0]) + InkAll(rest) by {
          InkAllOfConcat([ts[0]], rest);
          InkAllOfOne(ts[0]);
        }
      } else {
        assert NonBlank(ts) == rest;
        InkOfBlank(ts[0]);
      }
    }
  }

  lemma {:induction false} StripAllFacts(ts: seq<Text>)
    ensures InkAll(StripAll(ts)) == InkAll(ts)
    ensures AllInked(ts) ==> AllInked(StripAll(ts))
  {
    if ts != [] {
      StripAllFacts(ts[1..]);
      StripFacts(ts[0]);
      InkOfBlank(ts[0]);
      InkOfBlank(Strip(ts[0]));
      InkAllOfConcat([Strip(ts[0])], StripAll(ts[1..]));
      InkAllOfOne(Strip(ts[0]));
    }
  }
}
