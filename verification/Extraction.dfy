// Entity names and their canonical form (app/graph/extraction.py): the norm
// under which the graph identifies entities, and first-wins deduplication.
// The pattern matches and the LLM's entities are inputs.

module Extraction {
  import opened Texts

  datatype EntityType = Regulation | Standard | Reference | Organization | Obligation

  datatype Entity = Entity(name: string, kind: EntityType)

  // ----- normalize -----

  predicate BlankString(s: string) {
    forall i | 0 <= i < |s| :: IsSpace(s[i])
  }

  function SpacePrefix(s: string): (n: nat)
    ensures n <= |s| && BlankString(s[..n])
    ensures n < |s| ==> !IsSpace(s[n])
  {
    if s != [] && IsSpace(s[0]) then 1 + SpacePrefix(s[1..]) else 0
  }

  function WordPrefix(s: string): (n: nat)
    ensures n <= |s| && forall i | 0 <= i < n :: !IsSpace(s[i])
    ensures n < |s| ==> IsSpace(s[n])
  {
    if s != [] && !IsSpace(s[0]) then 1 + WordPrefix(s[1..]) else 0
  }

  // re.sub(r"\s+", " ", s)
  function Collapse(s: string): string
    decreases |s|
  {
    if s == [] then []
    else if IsSpace(s[0]) then [' '] + Collapse(s[SpacePrefix(s)..])
    else s[..WordPrefix(s)] + Collapse(s[WordPrefix(s)..])
  }

  function TrimStart(s: string): string {
    if s != [] && IsSpace(s[0]) then TrimStart(s[1..]) else s
  }

  function TrimEnd(s: string): string {
    if s != [] && IsSpace(s[|s| - 1]) then TrimEnd(s[..|s| - 1]) else s
  }

  function LowerChar(c: char): char {
    if 'A' <= c <= 'Z' then c - 'A' + 'a' else c
  }

  function Lower(s: string): (r: string)
    ensures |r| == |s|
  {
    seq(|s|, i requires 0 <= i < |s| => LowerChar(s[i]))
  }

  // With any lower-casing of strings, since that of Python follows the Unicode tables.
  function NormalizeWith(lower: string -> string, name: string): string {
    lower(TrimEnd(TrimStart(Collapse(name))))
  }

  // The norm with plain lower-casing, as the graph model uses it.
  function Normalize(name: string): string {
    NormalizeWith(Lower, name)
  }

  // ----- The norm is the words of the name, lower-cased, one space apart -----

  function Words(s: string): seq<string>
    decreases |s|
  {
    if s == [] then []
    else if IsSpace(s[0]) then Words(s[SpacePrefix(s)..])
    else [s[..WordPrefix(s)]] + Words(s[WordPrefix(s)..])
  }

  function JoinWords(words: seq<string>): string {
    if words == [] then []
    else if |words| == 1 then words[0]
    else words[0] + [' '] + JoinWords(words[1..])
  }

  ghost predicate AreWords(words: seq<string>) {
    forall i | 0 <= i < |words| :: words[i] != [] && forall j | 0 <= j < |words[i]| :: !IsSpace(words[i][j])
  }

  lemma {:induction false} WordsHaveNoSpace(s: string)
    ensures AreWords(Words(s))
    decreases |s|
  {
    if s != [] {
      WordsHaveNoSpace(if IsSpace(s[0]) then s[SpacePrefix(s)..] else s[WordPrefix(s)..]);
    }
  }

  lemma BlankPrefix(s: string, n: nat)
    requires n <= |s| && BlankString(s[..n])
    ensures BlankString(s) <==> BlankString(s[n..])
  {
    assert forall i | 0 <= i < n :: s[i] == s[..n][i];
    assert forall i | n <= i < |s| :: s[i] == s[n..][i - n];
  }

  lemma {:induction false} NoWordsIffBlank(s: string)
    ensures BlankString(s) <==> Words(s) == []
    decreases |s|
  {
    if s != [] && IsSpace(s[0]) {
      NoWordsIffBlank(s[SpacePrefix(s)..]);
      BlankPrefix(s, SpacePrefix(s));
    }
  }

  lemma WordsAreWords(s: string)
    ensures AreWords(Words(s))
    ensures BlankString(s) <==> Words(s) == []
  {
    WordsHaveNoSpace(s);
    NoWordsIffBlank(s);
  }

  // A joined list of words starts and ends with ink.
  lemma {:induction false} JoinedEnds(words: seq<string>)
    requires AreWords(words) && words != []
    ensures var j := JoinWords(words); j != [] && !IsSpace(j[0]) && !IsSpace(j[|j| - 1])
  {
    if |words| > 1 {
      JoinedEnds(words[1..]);
    }
  }

  function Trailing(s: string): string {
    if s != [] && IsSpace(s[|s| - 1]) then [' '] else []
  }

  // One word and the whitespace after it.
  lemma CollapseWord(s: string) returns (word: string, tail: string)
    requires s != [] && !IsSpace(s[0]) && WordPrefix(s) < |s|
    ensures |tail| < |s| && (tail == [] || !IsSpace(tail[0]))
    ensures Collapse(s) == word + [' '] + Collapse(tail) && Words(s) == [word] + Words(tail)
    ensures Trailing(s) == if tail == [] then [' '] else Trailing(tail)
  {
    var n := WordPrefix(s);
    var rest := s[n..];
    var m := SpacePrefix(rest);
    word, tail := s[..n], rest[m..];
    assert Collapse(rest) == [' '] + Collapse(tail) && Words(rest) == Words(tail);
    Associative(word, [' '], Collapse(tail));
    if tail == [] {
      assert rest[..m] == rest && s[|s| - 1] == rest[..m][m - 1];
    } else {
      assert tail[|tail| - 1] == s[|s| - 1];
    }
  }

  // Past leading whitespace, collapsing leaves the joined words and at most one space.
  lemma {:induction false} CollapseIsJoined(s: string)
    requires s == [] || !IsSpace(s[0])
    ensures Collapse(s) == JoinWords(Words(s)) + Trailing(s)
    decreases |s|
  {
    if s != [] {
      if WordPrefix(s) == |s| {
        assert s[..|s|] == s && s[|s|..] == [] && Words(s) == [s];
      } else {
        var word, tail := CollapseWord(s);
        hide Collapse, Words, Trailing;
        CollapseIsJoined(tail);
        if tail == [] {
          NothingLeft(word);
        } else {
          WordsAreWords(tail);
          assert !BlankString(tail);
          assert ([word] + Words(tail))[1..] == Words(tail);
          Associative(word + [' '], JoinWords(Words(tail)), Trailing(tail));
        }
      }
    }
  }

  lemma NothingLeft(word: string)
    ensures Collapse([]) == [] && Words([]) == [] && JoinWords([word] + []) == word
  {
    assert [word] + [] == [word];
  }

  lemma TrimJoined(j: string, trailing: string)
    requires j != [] && !IsSpace(j[0]) && !IsSpace(j[|j| - 1])
    requires trailing == [] || trailing == [' ']
    ensures TrimStart(j + trailing) == j + trailing && TrimEnd(j + trailing) == j
  {
    if trailing == [] {
      assert j + [] == j;
    } else {
      assert (j + [' '])[..|j|] == j;
    }
  }

  lemma SkipLeading(name: string)
    ensures var rest := name[SpacePrefix(name)..];
      Words(rest) == Words(name) && TrimStart(Collapse(name)) == TrimStart(Collapse(rest))
  {
    var n := SpacePrefix(name);
    var rest := name[n..];
    if n == 0 {
      assert rest == name;
    } else {
      assert Collapse(name)[0] == ' ' && Collapse(name)[1..] == Collapse(rest);
    }
  }

  lemma TrimCollapsed(rest: string)
    requires rest == [] || !IsSpace(rest[0])
    ensures TrimEnd(TrimStart(Collapse(rest))) == JoinWords(Words(rest))
  {
    hide Words;
    CollapseIsJoined(rest);
    WordsAreWords(rest);
    if rest != [] {
      assert !BlankString(rest);
      JoinedEnds(Words(rest));
      hide TrimStart, TrimEnd, Collapse;
      TrimJoined(JoinWords(Words(rest)), Trailing(rest));
    } else {
      NothingLeft([]);
    }
  }

  lemma NormalizeIsWords(lower: string -> string, name: string)
    ensures NormalizeWith(lower, name) == lower(JoinWords(Words(name)))
  {
    hide Words, Collapse, TrimStart, TrimEnd, JoinWords;
    SkipLeading(name);
    TrimCollapsed(name[SpacePrefix(name)..]);
  }

  function LowerAll(lower: string -> string, words: seq<string>): (r: seq<string>)
    ensures |r| == |words|
  {
    if words == [] then [] else [lower(words[0])] + LowerAll(lower, words[1..])
  }

  // What is asked of a lower-casing: it works word by word, leaves words words,
  // and has nothing more to do the second time.
  ghost predicate WordByWord(lower: string -> string, words: seq<string>) {
    var lowered := LowerAll(lower, words);
    lower(JoinWords(words)) == JoinWords(lowered) && AreWords(lowered) && LowerAll(lower, lowered) == lowered
  }

  lemma {:induction false} LowerOfJoined(words: seq<string>)
    ensures Lower(JoinWords(words)) == JoinWords(LowerAll(Lower, words))
  {
    if |words| == 1 {
      assert LowerAll(Lower, words) == [Lower(words[0])] + LowerAll(Lower, words[1..]);
    } else if words != [] {
      LowerOfJoined(words[1..]);
      var lowered := LowerAll(Lower, words);
      assert lowered[1..] == LowerAll(Lower, words[1..]);
      assert Lower(words[0] + [' '] + JoinWords(words[1..]))
          == Lower(words[0]) + [' '] + Lower(JoinWords(words[1..]));
    }
  }

  lemma {:induction false} LowerAllAreWords(words: seq<string>)
    requires AreWords(words)
    ensures AreWords(LowerAll(Lower, words))
  {
    if words != [] {
      LowerAllAreWords(words[1..]);
      var first := Lower(words[0]);
      assert forall j | 0 <= j < |first| ::
        !IsSpace(words[0][j]) && first[j] == LowerChar(words[0][j]) && !IsSpace(first[j]);
    }
  }

  lemma WordPrefixOf(word: string, rest: string)
    requires word != [] && forall j | 0 <= j < |word| :: !IsSpace(word[j])
    requires rest == [] || IsSpace(rest[0])
    ensures WordPrefix(word + rest) == |word|
  {
    var s := word + rest;
    assert forall i | 0 <= i < |word| :: s[i] == word[i];
    assert rest != [] ==> s[|word|] == rest[0];
  }

  lemma SpacePrefixOfOne(rest: string)
    requires rest != [] && !IsSpace(rest[0])
    ensures SpacePrefix([' '] + rest) == 1
  {
    assert ([' '] + rest)[1..] == rest;
  }

  // The words can be read back from the joined form.
  lemma {:induction false} WordsOfJoined(words: seq<string>)
    requires AreWords(words)
    ensures Words(JoinWords(words)) == words
  {
    if words != [] {
      var word := words[0];
      if |words| == 1 {
        WordPrefixOf(word, []);
        assert word + [] == word && word[..|word|] == word && word[|word|..] == [];
        assert words == [word];
      } else {
        var rest := JoinWords(words[1..]);
        WordsOfJoined(words[1..]);
        JoinedEnds(words[1..]);
        Associative(word, [' '], rest);
        WordPrefixOf(word, [' '] + rest);
        var s := word + ([' '] + rest);
        assert s[..|word|] == word && s[|word|..] == [' '] + rest;
        SpacePrefixOfOne(rest);
        assert ([' '] + rest)[1..] == rest;
        assert Words([' '] + rest) == Words(rest);
      }
    }
  }

  // Two names are the same entity exactly when they have the same words up to case.
  lemma SameNormIffSameWords(lower: string -> string, a: string, b: string)
    requires WordByWord(lower, Words(a)) && WordByWord(lower, Words(b))
    ensures NormalizeWith(lower, a) == NormalizeWith(lower, b)
       <==> LowerAll(lower, Words(a)) == LowerAll(lower, Words(b))
  {
    NormalizeIsWords(lower, a);
    NormalizeIsWords(lower, b);
    hide NormalizeWith, Words, JoinWords, LowerAll;
    WordsOfJoined(LowerAll(lower, Words(a)));
    WordsOfJoined(LowerAll(lower, Words(b)));
  }

  // A norm is its own norm, so query norms and stored norms compare directly.
  lemma NormalizeIsIdempotent(lower: string -> string, name: string)
    requires WordByWord(lower, Words(name)) && WordByWord(lower, LowerAll(lower, Words(name)))
    ensures NormalizeWith(lower, NormalizeWith(lower, name)) == NormalizeWith(lower, name)
  {
    NormalizeIsWords(lower, name);
    NormalizeIsWords(lower, NormalizeWith(lower, name));
    hide NormalizeWith, Words, JoinWords, LowerAll;
    WordsOfJoined(LowerAll(lower, Words(name)));
  }

  lemma {:induction false} LowerAllTwice(words: seq<string>)
    ensures LowerAll(Lower, LowerAll(Lower, words)) == LowerAll(Lower, words)
  {
    if words != [] {
      LowerAllTwice(words[1..]);
      assert LowerAll(Lower, words)[1..] == LowerAll(Lower, words[1..]);
      assert Lower(Lower(words[0])) == Lower(words[0]);
    }
  }

  // Plain lower-casing is one that works word by word.
  lemma PlainIsWordByWord(words: seq<string>)
    requires AreWords(words)
    ensures WordByWord(Lower, words)
  {
    LowerOfJoined(words);
    LowerAllAreWords(words);
    LowerAllTwice(words);
  }

  // ----- _dedupe -----

  // The entities of a prefix that are kept, in order.
  function Dedupe(entities: seq<Entity>): seq<Entity> {
    if entities == [] then []
    else
      var init, last := Dedupe(entities[..|entities| - 1]), entities[|entities| - 1];
      if Normalize(last.name) in Norms(entities[..|entities| - 1]) then init else init + [last]
  }

  function Norms(entities: seq<Entity>): set<string> {
    set e | e in entities :: Normalize(e.name)
  }

  method DedupeEntities(entities: seq<Entity>) returns (unique: seq<Entity>)
    ensures unique == Dedupe(entities)
  {
    hide Normalize;
    var seen: set<string> := {};
    unique := [];
    for i := 0 to |entities|
      invariant seen == Norms(entities[..i])
      invariant unique == Dedupe(entities[..i])
    {
      var entity := entities[i];
      var norm := Normalize(entity.name);
      NormsSnoc(entities[..i], entity);
      assert entities[..i + 1] == entities[..i] + [entity];
      assert entities[..i + 1][..i] == entities[..i];
      if norm !in seen {
        seen := seen + {norm};
        unique := unique + [entity];
      } else {
        assert seen + {norm} == seen;
      }
    }
    assert entities[..|entities|] == entities;
  }

  lemma NormsSnoc(entities: seq<Entity>, e: Entity)
    ensures Norms(entities + [e]) == Norms(entities) + {Normalize(e.name)}
  {
    hide Normalize;
    var all := entities + [e];
    assert forall x :: x in all <==> x in entities || x == e;
    forall n ensures n in Norms(all) <==> n in Norms(entities) + {Normalize(e.name)} {
      if n in Norms(all) {
        var x :| x in all && Normalize(x.name) == n;
      }
      if n in Norms(entities) {
        var x :| x in entities && Normalize(x.name) == n;
        assert x in all;
      }
      assert e in all;
    }
  }

  ghost predicate DistinctNorms(entities: seq<Entity>) {
    forall i, j | 0 <= i < j < |entities| :: Normalize(entities[i].name) != Normalize(entities[j].name)
  }

  lemma DistinctNormsSnoc(entities: seq<Entity>, e: Entity)
    requires DistinctNorms(entities) && Normalize(e.name) !in Norms(entities)
    ensures DistinctNorms(entities + [e])
  {
    hide Normalize;
    forall i | 0 <= i < |entities| ensures Normalize(entities[i].name) != Normalize(e.name) {
      assert entities[i] in entities;
    }
  }

  // One entity per norm, every norm present, and each is the first of its norm.
  lemma {:induction false} DedupeFacts(entities: seq<Entity>)
    ensures DistinctNorms(Dedupe(entities))
    ensures Norms(Dedupe(entities)) == Norms(entities)
    ensures |Dedupe(entities)| == |Norms(entities)|
  {
    hide Normalize, Norms;
    if entities == [] {
      NoNorms();
    } else {
      var init, last := entities[..|entities| - 1], entities[|entities| - 1];
      DedupeFacts(init);
      NormsSnoc(init, last);
      assert entities == init + [last];
      if Normalize(last.name) in Norms(init) {
        assert Norms(init) + {Normalize(last.name)} == Norms(init);
      } else {
        NormsSnoc(Dedupe(init), last);
        DistinctNormsSnoc(Dedupe(init), last);
      }
    }
  }

  lemma NoNorms()
    ensures Norms([]) == {}
  {
  }

  // First occurrence wins: what a longer list keeps starts with what its prefix keeps.
  lemma {:induction false} DedupeKeepsFirst(a: seq<Entity>, b: seq<Entity>)
    ensures Dedupe(a) <= Dedupe(a + b)
    decreases |b|
  {
    if b == [] {
      assert a + b == a;
    } else {
      DedupeKeepsFirst(a, b[..|b| - 1]);
      assert (a + b)[..|a + b| - 1] == a + b[..|b| - 1];
    }
  }

  // ----- CompositeExtractor.extract -----

  function Flatten(found: seq<seq<Entity>>): seq<Entity> {
    if found == [] then [] else Flatten(found[..|found| - 1]) + found[|found| - 1]
  }

  lemma {:induction false} FlattenSplits(found: seq<seq<Entity>>, k: nat)
    requires k <= |found|
    ensures Flatten(found) == Flatten(found[..k]) + Flatten(found[k..])
    decreases |found|
  {
    var n := |found| - 1;
    if k == |found| {
      assert found[..k] == found && Flatten(found) + [] == Flatten(found);
    } else {
      FlattenSplits(found[..n], k);
      assert found[..n][..k] == found[..k] && found[..n][k..] == found[k..][..n - k];
      Associative(Flatten(found[..k]), Flatten(found[..n][k..]), found[n]);
    }
  }

  lemma {:induction false} DedupeMembers(entities: seq<Entity>, e: Entity)
    requires e in Dedupe(entities)
    ensures e in entities
  {
    hide Normalize, Norms;
    var n := |entities| - 1;
    if e in Dedupe(entities[..n]) {
      DedupeMembers(entities[..n], e);
    }
  }

  lemma {:induction false} FlattenMembers(found: seq<seq<Entity>>, e: Entity)
    ensures e in Flatten(found) <==> exists m :: 0 <= m < |found| && e in found[m]
  {
    if found != [] {
      var n := |found| - 1;
      FlattenMembers(found[..n], e);
      if m :| 0 <= m < |found| && e in found[m] {
        assert m < n ==> found[..n][m] == found[m];
      }
    }
  }

  // What the first k extractors found alone is how the result begins.
  lemma EarlierExtractorsFirst(found: seq<seq<Entity>>, k: nat)
    requires k <= |found|
    ensures Dedupe(Flatten(found[..k])) <= Dedupe(Flatten(found))
    ensures k == 1 ==> Flatten(found[..k]) == found[0]
  {
    hide Dedupe;
    FlattenSplits(found, k);
    DedupeKeepsFirst(Flatten(found[..k]), Flatten(found[k..]));
    if k == 1 {
      assert found[..1][..0] == [] && [] + found[0] == found[0];
    }
  }

  lemma SameNormSameEntity(entities: seq<Entity>, a: Entity, b: Entity)
    requires DistinctNorms(entities) && a in entities && b in entities && Normalize(a.name) == Normalize(b.name)
    ensures a == b
  {
    hide Normalize;
    var i :| 0 <= i < |entities| && entities[i] == a;
    var j :| 0 <= j < |entities| && entities[j] == b;
    assert i < j || j < i || i == j;
  }

  // When two extractors found a norm, the entity of the later one is not
  // returned, unless an earlier one found the very same.
  lemma EarlierExtractorWins(found: seq<seq<Entity>>, i: nat, j: nat, a: Entity, b: Entity)
    requires i < j < |found| && a in found[i] && b in found[j] && Normalize(a.name) == Normalize(b.name)
    requires forall m | 0 <= m < j :: b !in found[m]
    ensures b !in Dedupe(Flatten(found))
  {
    hide Normalize, Dedupe, Norms, DistinctNorms;
    var early, all := Flatten(found[..j]), Flatten(found);
    FlattenMembers(found[..j], a);
    FlattenMembers(found[..j], b);
    assert found[..j][i] == found[i];
    assert a in early && b !in early;
    EarlierExtractorsFirst(found, j);
    DedupeFacts(early);
    DedupeFacts(all);
    var e := OfNorm(early, Dedupe(early), a);
    DedupeMembers(early, e);
    assert e in Dedupe(all);
    if b in Dedupe(all) {
      SameNormSameEntity(Dedupe(all), e, b);
    }
  }

  lemma OfNorm(entities: seq<Entity>, others: seq<Entity>, a: Entity) returns (e: Entity)
    requires a in entities && Norms(entities) == Norms(others)
    ensures e in others && Normalize(e.name) == Normalize(a.name)
  {
    hide Normalize;
    assert Normalize(a.name) in Norms(others);
    e :| e in others && Normalize(e.name) == Normalize(a.name);
  }

  // `found` holds what each extractor returned for the text, in extractor order.
  method ExtractComposite(found: seq<seq<Entity>>) returns (entities: seq<Entity>)
    ensures entities == Dedupe(Flatten(found))
    ensures found != [] ==> Dedupe(found[0]) <= entities
    ensures forall e | e in entities :: exists m :: 0 <= m < |found| && e in found[m]
  {
    var all: seq<Entity> := [];
    for i := 0 to |found|
      invariant all == Flatten(found[..i])
    {
      assert found[..i + 1][..i] == found[..i];
      all := all + found[i];
    }
    assert found[..|found|] == found;
    entities := DedupeEntities(all);
    if found != [] {
      EarlierExtractorsFirst(found, 1);
    }
    forall e | e in entities ensures exists m :: 0 <= m < |found| && e in found[m] {
      DedupeMembers(all, e);
      FlattenMembers(found, e);
    }
  }
}
