// The corrective loop of the question-answering agent (app/rag/agent.py) and
// the citations of its answer (app/rag/router.py). What the retriever, the
// language model and the web search return are arbitrary inputs.

module Crag {
  import opened Options
  import Ranking
  import opened Texts

  type ChunkId = string

  // A retrieved chunk with its document.
  datatype Hit = Hit(
    chunkId: ChunkId, text: string, headingPath: Option<string>, page: Option<nat>, documentId: string, title: string)

  datatype WebResult = WebResult(title: string, url: string, content: string)

  // The replies to the calls that one question can make; None is a call that raised.
  datatype Replies = Replies(
    first: seq<Hit>,
    firstVerdicts: Option<seq<bool>>,
    rewriting: Option<string>,
    second: seq<Hit>,
    secondVerdicts: Option<seq<bool>>,
    web: seq<WebResult>,
    answer: Option<string>)

  datatype Outcome = Outcome(
    answer: string, chunks: seq<Hit>, web: seq<WebResult>, rewritten: Option<string>,
    usedWebSearch: bool, lowConfidence: bool)

  datatype Failure = IndexError | GenerationFailed

  // rag_min_relevant and rag_max_context_chunks
  datatype Settings = Settings(minRelevant: nat, maxChunks: nat)

  // ----- Grading -----

  function Trues(n: nat): (r: seq<bool>)
    ensures |r| == n && forall i | 0 <= i < n :: r[i]
  {
    seq(n, _ => true)
  }

  // One verdict per chunk; what the grading call did not answer passes.
  function Verdicts(parsed: seq<bool>, expected: nat): (r: seq<bool>)
    ensures |r| == expected
    ensures forall i | 0 <= i < expected :: r[i] <==> (i < |parsed| ==> parsed[i])
  {
    var kept := if |parsed| <= expected then parsed else parsed[..expected];
    kept + Trues(expected - |kept|)
  }

  function Kept(chunks: seq<Hit>, verdicts: seq<bool>): seq<Hit>
    requires |chunks| == |verdicts|
  {
    if chunks == [] then []
    else
      var n := |chunks| - 1;
      Kept(chunks[..n], verdicts[..n]) + if verdicts[n] then [chunks[n]] else []
  }

  // A grading call that fails lets everything pass.
  function Grade(chunks: seq<Hit>, parsed: Option<seq<bool>>): seq<Hit> {
    match parsed
    case None => chunks
    case Some(verdicts) => Kept(chunks, Verdicts(verdicts, |chunks|))
  }

  // The grading call answered false for this chunk.
  predicate Rejected(parsed: Option<seq<bool>>, i: nat) {
    parsed.Some? && i < |parsed.value| && !parsed.value[i]
  }

  lemma {:induction false} KeptMembers(chunks: seq<Hit>, verdicts: seq<bool>, c: Hit)
    requires |chunks| == |verdicts|
    ensures c in Kept(chunks, verdicts) <==> exists i :: 0 <= i < |chunks| && chunks[i] == c && verdicts[i]
  {
    if chunks != [] {
      var n := |chunks| - 1;
      KeptMembers(chunks[..n], verdicts[..n], c);
      if i :| 0 <= i < |chunks| && chunks[i] == c && verdicts[i] {
        assert i < n ==> chunks[..n][i] == c && verdicts[..n][i];
      }
    }
  }

  // A chunk is dropped exactly when every one of its places was rejected.
  lemma GradeMembers(chunks: seq<Hit>, parsed: Option<seq<bool>>, c: Hit)
    ensures c in Grade(chunks, parsed) <==> exists i :: 0 <= i < |chunks| && chunks[i] == c && !Rejected(parsed, i)
  {
    match parsed
    case None =>
      assert forall i | 0 <= i < |chunks| :: !Rejected(parsed, i);
    case Some(verdicts) =>
      var all := Verdicts(verdicts, |chunks|);
      KeptMembers(chunks, all, c);
      assert forall i | 0 <= i < |chunks| :: all[i] <==> !Rejected(parsed, i);
  }

  lemma {:induction false} KeptInOrder(chunks: seq<Hit>, verdicts: seq<bool>, a: Hit, b: Hit)
    requires |chunks| == |verdicts| && Ranking.Before(Kept(chunks, verdicts), a, b)
    ensures Ranking.Before(chunks, a, b)
  {
    if chunks != [] {
      var n := |chunks| - 1;
      var init := Kept(chunks[..n], verdicts[..n]);
      if Ranking.Before(init, a, b) {
        KeptInOrder(chunks[..n], verdicts[..n], a, b);
        BeforeInLonger(chunks, n, a, b);
      } else {
        KeptMembers(chunks[..n], verdicts[..n], a);
        LastOfBefore(init, if verdicts[n] then [chunks[n]] else [], a, b);
      }
    }
  }

  lemma BeforeInLonger(chunks: seq<Hit>, n: nat, a: Hit, b: Hit)
    requires n <= |chunks| && Ranking.Before(chunks[..n], a, b)
    ensures Ranking.Before(chunks, a, b)
  {
    var i, j :| 0 <= i < j < n && chunks[..n][i] == a && chunks[..n][j] == b;
    assert chunks[i] == a && chunks[j] == b;
  }

  // Only the last one can be new.
  lemma LastOfBefore(init: seq<Hit>, last: seq<Hit>, a: Hit, b: Hit)
    requires |last| <= 1 && Ranking.Before(init + last, a, b) && !Ranking.Before(init, a, b)
    ensures last == [b] && a in init
  {
    var all := init + last;
    var i, j :| 0 <= i < j < |all| && all[i] == a && all[j] == b;
    assert forall m | 0 <= m < |init| :: all[m] == init[m];
  }

  // What passes stays in the order of the retriever.
  lemma GradeKeepsOrder(chunks: seq<Hit>, parsed: Option<seq<bool>>, a: Hit, b: Hit)
    requires Ranking.Before(Grade(chunks, parsed), a, b)
    ensures Ranking.Before(chunks, a, b)
  {
    if parsed.Some? {
      KeptInOrder(chunks, Verdicts(parsed.value, |chunks|), a, b);
    }
  }

  ghost predicate DistinctChunks(chunks: seq<Hit>) {
    forall i, j | 0 <= i < j < |chunks| :: chunks[i].chunkId != chunks[j].chunkId
  }

  predicate HasId(chunks: seq<Hit>, id: ChunkId) {
    exists c | c in chunks :: c.chunkId == id
  }

  lemma {:induction false} KeptIsDistinct(chunks: seq<Hit>, verdicts: seq<bool>)
    requires |chunks| == |verdicts| && DistinctChunks(chunks)
    ensures DistinctChunks(Kept(chunks, verdicts)) && |Kept(chunks, verdicts)| <= |chunks|
  {
    if chunks != [] {
      var n := |chunks| - 1;
      KeptIsDistinct(chunks[..n], verdicts[..n]);
      forall c | c in Kept(chunks[..n], verdicts[..n]) ensures c.chunkId != chunks[n].chunkId {
        KeptMembers(chunks[..n], verdicts[..n], c);
      }
    }
  }

  lemma GradeIsDistinct(chunks: seq<Hit>, parsed: Option<seq<bool>>)
    requires DistinctChunks(chunks)
    ensures DistinctChunks(Grade(chunks, parsed)) && |Grade(chunks, parsed)| <= |chunks|
  {
    if parsed.Some? {
      KeptIsDistinct(chunks, Verdicts(parsed.value, |chunks|));
    }
  }

  // ----- The rewritten query -----

  predicate IsQuote(ch: char) {
    ch == '"'
  }

  function StripBy(drop: char -> bool, s: string): (r: string)
    ensures r == [] <==> forall ch | ch in s :: drop(ch)
    ensures r != [] ==> !drop(r[0]) && !drop(r[|r| - 1])
    ensures |r| <= |s|
    decreases |s|
  {
    if s == [] then []
    else if drop(s[0]) then StripBy(drop, s[1..])
    else if drop(s[|s| - 1]) then StripBy(drop, s[..|s| - 1])
    else s
  }

  function FirstLine(s: string): string {
    if s == [] || IsLineBreak(s[0]) then [] else [s[0]] + FirstLine(s[1..])
  }

  // The first line of the reply, unquoted; None when it brings nothing new.
  // splitlines()[0] raises when nothing is left of a reply that was not blank.
  function Rewrite(lower: string -> string, question: string, reply: Option<string>)
    : (r: Result<Option<string>, Failure>)
    ensures r.Err? ==> r.error == IndexError
  {
    match reply
    case None => Ok(None)
    case Some(raw) =>
      var stripped := StripBy(IsSpace, raw);
      if stripped == [] then Ok(None)
      else
        var unquoted := StripBy(IsQuote, stripped);
        if unquoted == [] then Err(IndexError)
        else
          var rewritten := StripBy(IsSpace, FirstLine(unquoted));
          Ok(if rewritten != [] && lower(rewritten) != lower(question) then Some(rewritten) else None)
  }

  lemma {:induction false} StripIsSlice(drop: char -> bool, s: string) returns (i: nat, j: nat)
    ensures i <= j <= |s| && StripBy(drop, s) == s[i..j]
    ensures forall k | 0 <= k < |s| && !(i <= k < j) :: drop(s[k])
    decreases |s|
  {
    if s == [] {
      i, j := 0, 0;
    } else if drop(s[0]) {
      i, j := StripIsSlice(drop, s[1..]);
      assert s[1..][i..j] == s[i + 1..j + 1];
      i, j := i + 1, j + 1;
      forall k | 0 <= k < |s| && !(i <= k < j) ensures drop(s[k]) {
        assert k > 0 ==> s[k] == s[1..][k - 1];
      }
    } else if drop(s[|s| - 1]) {
      i, j := StripIsSlice(drop, s[..|s| - 1]);
      assert s[..|s| - 1][i..j] == s[i..j];
      forall k | 0 <= k < |s| && !(i <= k < j) ensures drop(s[k]) {
        assert k < |s| - 1 ==> s[k] == s[..|s| - 1][k];
      }
    } else {
      i, j := 0, |s|;
    }
  }

  // Only quotation marks from i to j, only white space around them.
  ghost predicate OnlyQuotes(s: string, i: nat, j: nat) {
    && i < j <= |s|
    && (forall k | i <= k < j :: IsQuote(s[k]))
    && (forall k | 0 <= k < |s| && !(i <= k < j) :: IsSpace(s[k]))
  }

  lemma StrippedQuotes(raw: string, i: nat, j: nat)
    requires OnlyQuotes(raw, i, j)
    ensures StripBy(IsSpace, raw) != [] && StripBy(IsQuote, StripBy(IsSpace, raw)) == []
  {
    var a, b := StripIsSlice(IsSpace, raw);
    assert raw[i] in raw && !IsSpace(raw[i]);
    var stripped := StripBy(IsSpace, raw);
    assert !IsSpace(raw[a]) && !IsSpace(raw[b - 1]);
    hide StripBy;
    assert i <= a && b <= j;
    forall ch | ch in stripped ensures IsQuote(ch) {
      var k :| a <= k < b && raw[k] == ch;
    }
  }

  lemma QuotesWhenStripped(raw: string) returns (i: nat, j: nat)
    requires StripBy(IsSpace, raw) != [] && StripBy(IsQuote, StripBy(IsSpace, raw)) == []
    ensures OnlyQuotes(raw, i, j)
  {
    i, j := StripIsSlice(IsSpace, raw);
    var stripped := StripBy(IsSpace, raw);
    hide StripBy;
    forall k | i <= k < j ensures IsQuote(raw[k]) {
      assert stripped[k - i] in stripped;
    }
  }

  // Rewriting raises exactly for a reply of nothing but quotation marks, with
  // at most white space around them.
  lemma RewriteRaisesIffOnlyQuotes(lower: string -> string, question: string, reply: Option<string>)
    ensures Rewrite(lower, question, reply).Err? <==> reply.Some? && exists i, j :: OnlyQuotes(reply.value, i, j)
  {
    hide StripBy, OnlyQuotes, FirstLine;
    if reply.Some? {
      if Rewrite(lower, question, reply).Err? {
        var i, j := QuotesWhenStripped(reply.value);
      }
      if i, j :| OnlyQuotes(reply.value, i, j) {
        StrippedQuotes(reply.value, i, j);
      }
    }
  }

  // A string in parts: white space, quotation marks, what is unquoted from b
  // to c, quotation marks, white space.
  ghost predicate UnquotedAt(s: string, a: nat, b: nat, c: nat, d: nat) {
    && a <= b <= c <= d <= |s|
    && (forall m | 0 <= m < a || d <= m < |s| :: IsSpace(s[m]))
    && (a < d ==> !IsSpace(s[a]) && !IsSpace(s[d - 1]))
    && (forall m | a <= m < b || c <= m < d :: s[m] == '"')
    && (b < c ==> s[b] != '"' && s[c - 1] != '"')
  }

  // Its first line ends at k, and i to j is left of this line without the white
  // space at its ends.
  ghost predicate FirstLineAt(s: string, b: nat, c: nat, i: nat, j: nat, k: nat) {
    && b <= i <= j <= k <= c <= |s|
    && (forall m | b <= m < k :: !IsLineBreak(s[m])) && (k < c ==> IsLineBreak(s[k]))
    && (forall m | b <= m < i || j <= m < k :: IsSpace(s[m]))
    && (i < j ==> !IsSpace(s[i]) && !IsSpace(s[j - 1]))
  }

  lemma {:induction false} FirstLineIsPrefix(s: string)
    ensures var n := |FirstLine(s)|;
      && n <= |s| && FirstLine(s) == s[..n]
      && (forall m | 0 <= m < n :: !IsLineBreak(s[m])) && (n < |s| ==> IsLineBreak(s[n]))
  {
    if s != [] && !IsLineBreak(s[0]) {
      FirstLineIsPrefix(s[1..]);
      var n := |FirstLine(s[1..])|;
      assert [s[0]] + s[1..][..n] == s[..n + 1];
      assert forall m | 1 <= m < |s| :: s[m] == s[1..][m - 1];
    }
  }

  lemma SliceOfSlice(s: string, from: nat, to: nat, i: nat, j: nat)
    requires from <= to <= |s| && i <= j <= to - from
    ensures s[from..to][i..j] == s[from + i..from + j]
  {
    var x, y := s[from..to][i..j], s[from + i..from + j];
    forall m | 0 <= m < |x| ensures x[m] == y[m] {
      assert x[m] == s[from..to][i + m];
    }
  }

  // Stripping part of a string.
  lemma StripPart(drop: char -> bool, s: string, from: nat, to: nat) returns (i: nat, j: nat)
    requires from <= to <= |s|
    ensures from <= i <= j <= to && StripBy(drop, s[from..to]) == s[i..j]
    ensures forall m | from <= m < i || j <= m < to :: drop(s[m])
    ensures i < j ==> !drop(s[i]) && !drop(s[j - 1])
  {
    hide StripBy;
    var part := s[from..to];
    var p, q := StripIsSlice(drop, part);
    SliceOfSlice(s, from, to, p, q);
    i, j := from + p, from + q;
    var r := StripBy(drop, part);
    assert r == s[i..j];
    forall m | from <= m < i || j <= m < to ensures drop(s[m]) {
      assert s[m] == part[m - from];
    }
    assert r != [] ==> r[0] == s[i] && r[|r| - 1] == s[j - 1];
  }

  // The first line of part of a string, stripped.
  lemma FirstLinePart(s: string, b: nat, c: nat) returns (i: nat, j: nat, k: nat)
    requires b <= c <= |s|
    ensures FirstLineAt(s, b, c, i, j, k) && StripBy(IsSpace, FirstLine(s[b..c])) == s[i..j]
  {
    hide StripBy, FirstLine;
    var part := s[b..c];
    FirstLineIsPrefix(part);
    var n := |FirstLine(part)|;
    k := b + n;
    SliceOfSlice(s, b, c, 0, n);
    assert part[0..n] == part[..n];
    i, j := StripPart(IsSpace, s, b, k);
    forall m | b <= m < k ensures !IsLineBreak(s[m]) {
      assert s[m] == part[m - b];
    }
    assert k < c ==> s[k] == part[n];
  }

  lemma UnquotedPart(s: string) returns (a: nat, b: nat, c: nat, d: nat)
    ensures UnquotedAt(s, a, b, c, d)
    ensures StripBy(IsSpace, s) == s[a..d] && StripBy(IsQuote, s[a..d]) == s[b..c]
  {
    hide StripBy;
    a, d := StripPart(IsSpace, s, 0, |s|);
    assert s[0..|s|] == s;
    b, c := StripPart(IsQuote, s, a, d);
  }

  lemma FirstLineInside(s: string, b: nat, c: nat, i: nat, j: nat, k: nat)
    requires FirstLineAt(s, b, c, i, j, k)
    ensures b <= i <= j <= k <= c <= |s|
  {
  }

  // Which part of a reply becomes the new query: the first line of what is
  // inside the quotation marks, unless there is nothing on it or it is the
  // question again.
  lemma RewriteTakesFirstLine(lower: string -> string, question: string, raw: string)
      returns (a: nat, b: nat, c: nat, d: nat, i: nat, j: nat, k: nat)
    ensures UnquotedAt(raw, a, b, c, d) && FirstLineAt(raw, b, c, i, j, k)
    ensures Rewrite(lower, question, Some(raw)) ==
      if a == d then Ok(None)
      else if b == c then Err(IndexError)
      else Ok(if i < j && lower(raw[i..j]) != lower(question) then Some(raw[i..j]) else None)
  {
    hide StripBy, FirstLine, UnquotedAt, FirstLineAt;
    a, b, c, d := UnquotedPart(raw);
    UnquotedInside(raw, a, b, c, d);
    i, j, k := FirstLinePart(raw, b, c);
    FirstLineInside(raw, b, c, i, j, k);
  }

  lemma UnquotedInside(s: string, a: nat, b: nat, c: nat, d: nat)
    requires UnquotedAt(s, a, b, c, d)
    ensures a <= b <= c <= d <= |s|
  {
  }

  // ----- Context blocks and citations -----

  // A numbered block of the prompt: its header, and the text below it.
  datatype Block =
    | DocumentBlock(number: nat, title: string, location: string, page: Option<nat>, text: string)
    | WebBlock(number: nat, title: string, url: string, text: string)

  datatype Citation =
    | DocumentCitation(
        index: nat, snippet: string, chunkId: ChunkId, documentId: string, documentTitle: string,
        headingPath: Option<string>, page: Option<nat>)
    | WebCitation(index: nat, snippet: string, url: string, title: string)

  const SNIPPET: nat := 300

  function Snippet(text: string): string {
    if |text| <= SNIPPET then text else text[..SNIPPET]
  }

  // `a or b` for an optional string.
  function Location(hit: Hit): string {
    if hit.headingPath.Some? && hit.headingPath.value != "" then hit.headingPath.value else hit.title
  }

  // Page 0 is as good as none.
  function ShownPage(page: Option<nat>): Option<nat> {
    if page == Some(0) then None else page
  }

  function BlockOf(mask: string -> string, chunks: seq<Hit>, web: seq<WebResult>, n: nat): Block
    requires n < |chunks| + |web|
  {
    if n < |chunks| then
      var hit := chunks[n];
      DocumentBlock(n + 1, hit.title, Location(hit), ShownPage(hit.page), mask(hit.text))
    else
      var result := web[n - |chunks|];
      WebBlock(n + 1, result.title, result.url, result.content)
  }

  method ContextBlocks(mask: string -> string, chunks: seq<Hit>, web: seq<WebResult>) returns (blocks: seq<Block>)
    ensures |blocks| == |chunks| + |web|
    ensures forall n | 0 <= n < |blocks| :: blocks[n] == BlockOf(mask, chunks, web, n)
  {
    blocks := [];
    for i := 0 to |chunks|
      invariant |blocks| == i && forall n | 0 <= n < i :: blocks[n] == BlockOf(mask, chunks, web, n)
    {
      var hit := chunks[i];
      blocks := blocks + [DocumentBlock(i + 1, hit.title, Location(hit), ShownPage(hit.page), mask(hit.text))];
    }
    var offset := |chunks|;
    for j := 0 to |web|
      invariant |blocks| == offset + j && forall n | 0 <= n < offset + j :: blocks[n] == BlockOf(mask, chunks, web, n)
    {
      blocks := blocks + [WebBlock(offset + 1 + j, web[j].title, web[j].url, web[j].content)];
    }
  }

  function Citations(outcome: Outcome): seq<Citation> {
    var offset := |outcome.chunks|;
    seq(offset, i requires 0 <= i < offset =>
      var hit := outcome.chunks[i];
      DocumentCitation(i + 1, Snippet(hit.text), hit.chunkId, hit.documentId, hit.title, hit.headingPath, hit.page))
    + seq(|outcome.web|, j requires 0 <= j < |outcome.web| =>
      var result := outcome.web[j];
      WebCitation(offset + 1 + j, Snippet(result.content), result.url, result.title))
  }

  // The block and the citation name the same source.
  predicate SameSource(block: Block, citation: Citation) {
    match (block, citation)
    case (DocumentBlock(number, title, location, page, _),
          DocumentCitation(index, _, _, _, documentTitle, path, citedPage)) =>
      && number == index && title == documentTitle && page == ShownPage(citedPage)
      && location == (if path.Some? && path.value != "" then path.value else documentTitle)
    case (WebBlock(number, title, url, text), WebCitation(index, snippet, citedUrl, citedTitle)) =>
      number == index && title == citedTitle && url == citedUrl && snippet <= text
    case (DocumentBlock(_, _, _, _, _), WebCitation(_, _, _, _)) => false
    case (WebBlock(_, _, _, _), DocumentCitation(_, _, _, _, _, _, _)) => false
  }

  // What the model reads of a source and what the reader is shown: the whole
  // text of a chunk, masked, and its beginning as it is; a web result is not masked.
  ghost predicate QuotesSource(mask: string -> string, outcome: Outcome, n: nat, block: Block, citation: Citation)
    requires n < |outcome.chunks| + |outcome.web|
  {
    if n < |outcome.chunks| then
      var hit := outcome.chunks[n];
      && block.DocumentBlock? && block.text == mask(hit.text)
      && citation.DocumentCitation? && citation.chunkId == hit.chunkId && citation.documentId == hit.documentId
      && Begins(citation.snippet, hit.text)
    else
      var result := outcome.web[n - |outcome.chunks|];
      && block.WebBlock? && block.text == result.content
      && citation.WebCitation? && citation.url == result.url
      && Begins(citation.snippet, result.content)
  }

  // The first 300 characters, or all there are.
  predicate Begins(snippet: string, text: string) {
    snippet <= text && (|snippet| == 300 || (|snippet| < 300 && snippet == text))
  }

  lemma CitationsQuoteSources(mask: string -> string, outcome: Outcome)
    ensures |Citations(outcome)| == |outcome.chunks| + |outcome.web|
    ensures forall n | 0 <= n < |Citations(outcome)| ::
      QuotesSource(mask, outcome, n, BlockOf(mask, outcome.chunks, outcome.web, n), Citations(outcome)[n])
  {
  }

  // A marker [n] in the answer means the same source to the model, which saw
  // the blocks, and to the reader, who sees the citations.
  lemma {:induction false} CitationsMirrorBlocks(mask: string -> string, outcome: Outcome)
    ensures |Citations(outcome)| == |outcome.chunks| + |outcome.web|
    ensures forall n | 0 <= n < |Citations(outcome)| ::
      && Citations(outcome)[n].index == n + 1
      && SameSource(BlockOf(mask, outcome.chunks, outcome.web, n), Citations(outcome)[n])
  {
  }

  // ----- One question -----

  function Fresh(chunks: seq<Hit>, survivors: seq<Hit>): seq<Hit> {
    if chunks == [] then []
    else
      var n := |chunks| - 1;
      Fresh(chunks[..n], survivors) + if HasId(survivors, chunks[n].chunkId) then [] else [chunks[n]]
  }

  function Survivors(r: Replies): seq<Hit> {
    Grade(r.first, r.firstVerdicts)
  }

  // All relevant chunks, when the query was rewritten or when it was not.
  function Relevant(r: Replies, rewritten: bool): seq<Hit> {
    if rewritten then Survivors(r) + Grade(Fresh(r.second, Survivors(r)), r.secondVerdicts) else Survivors(r)
  }

  // What the question is rewritten to, if that is tried at all.
  function Rewriting(lower: string -> string, settings: Settings, question: string, r: Replies)
    : Result<Option<string>, Failure>
  {
    if |Survivors(r)| < settings.minRelevant then Rewrite(lower, question, r.rewriting) else Ok(None)
  }

  // The outcome of a question, as a function of the replies.
  function OutcomeOf(lower: string -> string, settings: Settings, question: string, r: Replies)
    : Result<Outcome, Failure>
  {
    var rewriting := Rewriting(lower, settings, question, r);
    if rewriting.Err? then Err(rewriting.error)
    else if r.answer == None then Err(GenerationFailed)
    else
      var relevant := Relevant(r, rewriting.value.Some?);
      var web := if |relevant| < settings.minRelevant then r.web else [];
      var chunks := Ranking.Take(relevant, settings.maxChunks);
      Ok(Outcome(r.answer.value, chunks, web, rewriting.value, web != [], chunks == [] && web == []))
  }

  // The context blocks are what the language model sees; the citations of the
  // outcome are what the reader sees.
  method Ask(lower: string -> string, mask: string -> string, settings: Settings, question: string, r: Replies)
      returns (result: Result<Outcome, Failure>, blocks: seq<Block>)
    ensures result == OutcomeOf(lower, settings, question, r)
    ensures result == Err(IndexError) <==> Rewriting(lower, settings, question, r).Err?
    ensures result == Err(GenerationFailed) <==> Rewriting(lower, settings, question, r).Ok? && r.answer == None
    // The web is the last resort: its results are used only when both rounds
    // leave too few chunks, and then all of these are kept.
    ensures result.Ok? && result.value.usedWebSearch ==>
      && result.value.web == r.web != []
      && |Survivors(r)| < settings.minRelevant
      && (settings.minRelevant <= settings.maxChunks ==>
            && |result.value.chunks| < settings.minRelevant
            && result.value.chunks == Relevant(r, result.value.rewritten.Some?))
    ensures result.Ok? && |result.value.chunks| >= settings.minRelevant ==> !result.value.usedWebSearch
    ensures result.Ok? ==>
      var relevant := Relevant(r, result.value.rewritten.Some?);
      && (|relevant| < settings.minRelevant ==> result.value.web == r.web)
      && (result.value.usedWebSearch <==> result.value.web != [])
      && result.value.chunks <= relevant
      && |result.value.chunks| == (if |relevant| <= settings.maxChunks then |relevant| else settings.maxChunks)
    ensures result.Ok? ==>
      && |blocks| == |Citations(result.value)|
      && (forall n | 0 <= n < |blocks| ::
            Citations(result.value)[n].index == n + 1 && SameSource(blocks[n], Citations(result.value)[n]))
      && |blocks| == |result.value.chunks| + |result.value.web|
      && (forall n | 0 <= n < |blocks| ::
            QuotesSource(mask, result.value, n, blocks[n], Citations(result.value)[n]))
      && (result.value.lowConfidence <==> Citations(result.value) == [])
  {
    hide Grade, Fresh, Rewrite, Citations, SameSource, BlockOf, QuotesSource;
    blocks := [];
    var relevant := Grade(r.first, r.firstVerdicts);
    var rewritten: Option<string> := None;
    if |relevant| < settings.minRelevant {
      var attempt := Rewrite(lower, question, r.rewriting);
      if attempt.Err? {
        return Err(attempt.error), blocks;
      }
      rewritten := attempt.value;
      if rewritten.Some? {
        var more := Fresh(r.second, relevant);
        relevant := relevant + Grade(more, r.secondVerdicts);
      }
    }
    var web := [];
    if |relevant| < settings.minRelevant {
      web := r.web;
    }
    relevant := if settings.maxChunks <= |relevant| then relevant[..settings.maxChunks] else relevant;
    blocks := ContextBlocks(mask, relevant, web);
    if r.answer == None {
      return Err(GenerationFailed), blocks;
    }
    var outcome := Outcome(r.answer.value, relevant, web, rewritten, web != [], relevant == [] && web == []);
    CitationsMirrorBlocks(mask, outcome);
    CitationsQuoteSources(mask, outcome);
    return Ok(outcome), blocks;
  }

  // ----- What every answer rests on -----

  lemma {:induction false} FreshFacts(chunks: seq<Hit>, survivors: seq<Hit>)
    ensures forall c :: c in Fresh(chunks, survivors) <==> c in chunks && !HasId(survivors, c.chunkId)
    ensures DistinctChunks(chunks) ==> DistinctChunks(Fresh(chunks, survivors))
  {
    if chunks != [] {
      var n := |chunks| - 1;
      FreshFacts(chunks[..n], survivors);
      assert chunks == chunks[..n] + [chunks[n]];
      hide HasId;
      if DistinctChunks(chunks) {
        forall c | c in chunks[..n] ensures c.chunkId != chunks[n].chunkId {
        }
      }
    }
  }

  lemma {:induction false} FreshKeepsOrder(chunks: seq<Hit>, survivors: seq<Hit>, a: Hit, b: Hit)
    requires Ranking.Before(Fresh(chunks, survivors), a, b)
    ensures Ranking.Before(chunks, a, b)
  {
    hide HasId;
    if chunks != [] {
      var n := |chunks| - 1;
      var init := Fresh(chunks[..n], survivors);
      if Ranking.Before(init, a, b) {
        FreshKeepsOrder(chunks[..n], survivors, a, b);
        BeforeInLonger(chunks, n, a, b);
      } else {
        FreshFacts(chunks[..n], survivors);
        LastOfBefore(init, if HasId(survivors, chunks[n].chunkId) then [] else [chunks[n]], a, b);
      }
    }
  }

  // Relevant chunks of one round come in the order of that round, those of the
  // first round before those of the second.
  lemma RelevantInOrder(r: Replies, rewritten: bool, a: Hit, b: Hit)
    requires Ranking.Before(Relevant(r, rewritten), a, b)
    ensures
      || Ranking.Before(r.first, a, b) || (rewritten && a in r.first && b in r.second)
      || (rewritten && Ranking.Before(r.second, a, b))
  {
    var survivors, more := Survivors(r), Fresh(r.second, Survivors(r));
    var again := if rewritten then Grade(more, r.secondVerdicts) else [];
    assert Relevant(r, rewritten) == survivors + again;
    hide Relevant;
    GradeMembers(r.first, r.firstVerdicts, a);
    GradeMembers(more, r.secondVerdicts, b);
    hide Rejected, Grade;
    FreshFacts(r.second, survivors);
    hide Fresh, HasId;
    BeforeInConcat(survivors, again, a, b);
    if Ranking.Before(survivors, a, b) {
      GradeKeepsOrder(r.first, r.firstVerdicts, a, b);
    }
    if Ranking.Before(again, a, b) {
      GradeKeepsOrder(more, r.secondVerdicts, a, b);
      FreshKeepsOrder(r.second, survivors, a, b);
    }
  }

  lemma BeforeInConcat(xs: seq<Hit>, ys: seq<Hit>, a: Hit, b: Hit)
    requires Ranking.Before(xs + ys, a, b)
    ensures Ranking.Before(xs, a, b) || Ranking.Before(ys, a, b) || (a in xs && b in ys)
  {
    var all, n := xs + ys, |xs|;
    var i, j :| 0 <= i < j < |all| && all[i] == a && all[j] == b;
    if j < n {
      assert xs[i] == a && xs[j] == b;
    } else if i >= n {
      assert ys[i - n] == a && ys[j - n] == b;
    }
  }

  // The retriever returns each chunk once and at most as many as asked for.
  ghost predicate Retrieved(settings: Settings, chunks: seq<Hit>) {
    DistinctChunks(chunks) && |chunks| <= settings.maxChunks
  }

  lemma RelevantIsDistinct(r: Replies, rewritten: bool)
    requires DistinctChunks(r.first) && DistinctChunks(r.second)
    ensures DistinctChunks(Relevant(r, rewritten))
  {
    var survivors := Survivors(r);
    GradeIsDistinct(r.first, r.firstVerdicts);
    if rewritten {
      var more := Fresh(r.second, survivors);
      FreshFacts(r.second, survivors);
      GradeIsDistinct(more, r.secondVerdicts);
      forall c | c in Grade(more, r.secondVerdicts) ensures !HasId(survivors, c.chunkId) {
        GradeMembers(more, r.secondVerdicts, c);
      }
      hide Grade, Fresh;
      var added := Grade(more, r.secondVerdicts);
      forall i, j | 0 <= i < |survivors| && 0 <= j < |added| ensures survivors[i].chunkId != added[j].chunkId {
        assert survivors[i] in survivors && added[j] in added;
      }
    }
  }

  // Distinct chunks, at most top_k of them, the survivors of the first round
  // first and complete.
  lemma ChunksAreDistinctSurvivorsFirst(settings: Settings, r: Replies, rewritten: bool)
    requires Retrieved(settings, r.first) && Retrieved(settings, r.second)
    ensures var chunks := Ranking.Take(Relevant(r, rewritten), settings.maxChunks);
      && DistinctChunks(chunks) && |chunks| <= settings.maxChunks
      && Survivors(r) <= chunks
  {
    RelevantIsDistinct(r, rewritten);
    GradeIsDistinct(r.first, r.firstVerdicts);
    hide Grade, Fresh;
  }

  // Which chunks count as relevant: those that no grading call rejected, except
  // that a chunk rejected in the first round gets a second chance when the
  // rewritten query finds it again.
  lemma RelevantMembers(r: Replies, rewritten: bool, c: Hit)
    ensures var again := Fresh(r.second, Survivors(r));
      c in Relevant(r, rewritten) <==>
        || (exists i :: 0 <= i < |r.first| && r.first[i] == c && !Rejected(r.firstVerdicts, i))
        || (rewritten && exists i :: 0 <= i < |again| && again[i] == c && !Rejected(r.secondVerdicts, i))
  {
    GradeMembers(r.first, r.firstVerdicts, c);
    GradeMembers(Fresh(r.second, Survivors(r)), r.secondVerdicts, c);
    hide Grade, Fresh;
  }

  // The citations name this chunk under exactly one number.
  ghost predicate CitedOnce(citations: seq<Citation>, id: ChunkId) {
    exists n ::
      && 0 <= n < |citations| && CitesChunk(citations[n], id)
      && forall m | 0 <= m < |citations| && CitesChunk(citations[m], id) :: m == n
  }

  // So does every answer for each of its chunks.
  lemma EachChunkIsCitedOnce(lower: string -> string, settings: Settings, question: string, r: Replies)
    requires Retrieved(settings, r.first) && Retrieved(settings, r.second)
    requires OutcomeOf(lower, settings, question, r).Ok?
    ensures var outcome := OutcomeOf(lower, settings, question, r).value;
      forall c | c in outcome.chunks :: CitedOnce(Citations(outcome), c.chunkId)
  {
    hide Grade, Fresh, Rewriting, Relevant, Citations, CitedOnce, DistinctChunks;
    ChunksAreDistinctSurvivorsFirst(settings, r, Rewriting(lower, settings, question, r).value.Some?);
    var outcome := OutcomeOf(lower, settings, question, r).value;
    forall n | 0 <= n < |outcome.chunks| ensures CitedOnce(Citations(outcome), outcome.chunks[n].chunkId) {
      DistinctMeansCitedOnce(outcome, n);
    }
  }

  lemma DistinctMeansCitedOnce(outcome: Outcome, n: nat)
    requires DistinctChunks(outcome.chunks) && n < |outcome.chunks|
    ensures CitedOnce(Citations(outcome), outcome.chunks[n].chunkId)
  {
    hide Citations, CitesChunk;
    var id := outcome.chunks[n].chunkId;
    CitedChunks(outcome, id);
    assert CitesChunk(Citations(outcome)[n], id);
  }

  lemma CitedChunks(outcome: Outcome, id: ChunkId)
    ensures |Citations(outcome)| >= |outcome.chunks|
    ensures forall m | 0 <= m < |Citations(outcome)| ::
      CitesChunk(Citations(outcome)[m], id) <==> m < |outcome.chunks| && outcome.chunks[m].chunkId == id
  {
  }

  predicate CitesChunk(citation: Citation, id: ChunkId) {
    citation.DocumentCitation? && citation.chunkId == id
  }

  // ----- A second chance -----

  lemma {:induction false} LetterSurvives(ch: char)
    requires !IsSpace(ch) && !IsQuote(ch) && !IsLineBreak(ch)
    ensures StripBy(IsSpace, [ch]) == [ch] && StripBy(IsQuote, [ch]) == [ch] && FirstLine([ch]) == [ch]
  {
    assert [ch][1..] == [];
  }

  lemma OneRejected(c: Hit)
    ensures Grade([c], Some([false])) == [] && Grade([c], Some([true])) == [c]
    ensures Fresh([c], []) == [c]
  {
    assert [c][..0] == [];
    assert Verdicts([false], 1) == [false] && Verdicts([true], 1) == [true];
    assert Kept([], []) == [] && Fresh([], []) == [];
    assert [false][..0] == [] && [true][..0] == [];
    assert Kept([c], [false]) == Kept([], []) + [];
    assert Kept([c], [true]) == Kept([], []) + [c];
    assert !HasId([], c.chunkId);
  }

  // "Grade the new chunks" is not what the second round does: it also grades
  // chunks again that the first round rejected, and one can be all that the
  // answer rests on.
  lemma RejectedChunkCanComeBack(
      lower: string -> string, settings: Settings, question: string, c: Hit, web: seq<WebResult>)
    requires settings.minRelevant >= 1 && settings.maxChunks >= 1 && lower("x") != lower(question)
    ensures var r := Replies([c], Some([false]), Some("x"), [c], Some([true]), web, Some("yes"));
      var result := OutcomeOf(lower, settings, question, r);
      Rejected(r.firstVerdicts, 0) && result.Ok? && result.value.chunks == [c]
  {
    hide Rewrite, Grade, Fresh;
    var r := Replies([c], Some([false]), Some("x"), [c], Some([true]), web, Some("yes"));
    OneRejected(c);
    RewrittenToX(lower, question);
    assert Rewriting(lower, settings, question, r) == Ok(Some("x"));
    assert Relevant(r, true) == [] + [c];
    hide Rewriting, Relevant;
  }

  lemma RewrittenToX(lower: string -> string, question: string)
    requires lower("x") != lower(question)
    ensures Rewrite(lower, question, Some("x")) == Ok(Some("x"))
  {
    hide StripBy, FirstLine;
    LetterSurvives('x');
    assert "x" == ['x'];
  }
}
