// Hybrid retrieval (app/retrieval/service.py:138-205): fuse the rankings, cut,
// hydrate from the database, rerank, cut again.
//
// The three rankings, the database rows and the reranker are arbitrary inputs.

module HybridSearch {
  import opened Documents
  import Chunking
  import opened Options
  import opened Ranking
  import opened Rrf
  import Texts

  // A chunk row joined with its document.
  datatype Row = Row(id: Id, headingPath: string, text: string, status: Status, docType: DocumentType)

  // Rows are stored under their own primary key.
  predicate Keyed(rows: map<Id, Row>) {
    forall id | id in rows :: rows[id].id == id
  }

  type Table = rows: map<Id, Row> | Keyed(rows) witness map[]

  datatype Retrieved = Retrieved(row: Row, score: real)

  datatype GraphOutcome = Disabled | Found(ids: seq<Id>) | Raised

  // zip(strict=True) rejects a reranker that returns another number of scores.
  datatype SearchError = ScoreCountMismatch

  const RERANK_CANDIDATES: nat := 10
  const SEARCH_TOP_K: nat := 5

  // ----- The steps of a search -----

  predicate Loadable(id: Id, db: Table, docTypes: seq<DocumentType>) {
    id in db && db[id].status == Ready && (docTypes == [] || db[id].docType in docTypes)
  }

  function Hydrate(ids: seq<Id>, db: Table, docTypes: seq<DocumentType>): seq<Row> {
    if ids == [] then []
    else (if Loadable(ids[0], db, docTypes) then [db[ids[0]]] else []) + Hydrate(ids[1..], db, docTypes)
  }

  function Passage(row: Row): string {
    if row.headingPath != "" then row.headingPath + "\n\n" + row.text else row.text
  }

  // The reranker reads what was embedded of a chunk.
  lemma PassageIsWhatWasEmbedded(row: Row, chunk: Chunking.Chunk)
    requires row.headingPath == chunk.headingPath && row.text == Texts.Chars(chunk.text)
    ensures Passage(row) == Chunking.EmbeddingText(chunk)
  {
  }

  function Passages(rows: seq<Row>): seq<string> {
    seq(|rows|, i requires 0 <= i < |rows| => Passage(rows[i]))
  }

  function Scored(rows: seq<Row>, scores: seq<real>): (all: seq<Retrieved>)
    requires |rows| == |scores|
    ensures |all| == |rows| && forall i | 0 <= i < |rows| :: all[i] == Retrieved(rows[i], scores[i])
  {
    seq(|rows|, i requires 0 <= i < |rows| => Retrieved(rows[i], scores[i]))
  }

  function GraphIds(graph: GraphOutcome): seq<Id> {
    if graph.Found? then graph.ids else []
  }

  function EffectiveTopK(topK: Option<nat>): nat {
    if topK.Some? && topK.value != 0 then topK.value else SEARCH_TOP_K
  }

  const BY_SCORE: Retrieved -> real := (r: Retrieved) => r.score

  // The candidates that reach the reranker, in fused order.
  function Candidates(
      vectorIds: seq<Id>, fulltextIds: seq<Id>, graph: GraphOutcome, db: Table, docTypes: seq<DocumentType>)
    : seq<Row>
  {
    Hydrate(Take(Fused([vectorIds, fulltextIds, GraphIds(graph)], RRF_K), RERANK_CANDIDATES), db, docTypes)
  }

  // ----- What the candidates are -----

  lemma {:induction false} HydrateMembers(ids: seq<Id>, db: Table, docTypes: seq<DocumentType>, row: Row)
    ensures row in Hydrate(ids, db, docTypes) <==> row.id in ids && Loadable(row.id, db, docTypes) && db[row.id] == row
  {
    if ids != [] {
      HydrateMembers(ids[1..], db, docTypes, row);
      assert ids == [ids[0]] + ids[1..];
    }
  }

  ghost predicate InOrderOf(rows: seq<Row>, ids: seq<Id>) {
    forall i, j | 0 <= i < j < |rows| :: Before(ids, rows[i].id, rows[j].id)
  }

  // Hydration keeps the fused order and repeats nothing.
  lemma {:induction false} HydrateKeepsOrder(ids: seq<Id>, db: Table, docTypes: seq<DocumentType>)
    requires Distinct(ids)
    ensures InOrderOf(Hydrate(ids, db, docTypes), ids)
  {
    if ids != [] {
      var rows, rest := Hydrate(ids, db, docTypes), Hydrate(ids[1..], db, docTypes);
      HydrateKeepsOrder(ids[1..], db, docTypes);
      forall i, j | 0 <= i < j < |rest| ensures Before(ids, rest[i].id, rest[j].id) {
        BeforeInTail(ids, rest[i].id, rest[j].id);
      }
      forall j | 0 <= j < |rest| ensures Before(ids, ids[0], rest[j].id) {
        HydrateMembers(ids[1..], db, docTypes, rest[j]);
        BeforeFromHead(ids, rest[j].id);
      }
    }
  }

  ghost predicate DistinctIds(rows: seq<Row>) {
    forall i, j | 0 <= i < j < |rows| :: rows[i].id != rows[j].id
  }

  // The first ten fused ids, whatever ids the graph supplied.
  function TopTen(vectorIds: seq<Id>, fulltextIds: seq<Id>, graph: GraphOutcome): seq<Id> {
    var graphIds := match graph case Found(ids) => ids case Disabled => [] case Raised => [];
    Take(Fused([vectorIds, fulltextIds, graphIds], 60), 10)
  }

  // A row of the database that is READY and of a requested type, if any is requested.
  predicate Served(row: Row, db: Table, docTypes: seq<DocumentType>) {
    && row.id in db && db[row.id] == row && row.status.Ready?
    && (docTypes == [] || row.docType in docTypes)
  }

  // The candidates are exactly these rows among the first ten fused ids, in fused order.
  lemma CandidatesFacts(
      vectorIds: seq<Id>, fulltextIds: seq<Id>, graph: GraphOutcome, db: Table, docTypes: seq<DocumentType>)
    ensures var rows := Candidates(vectorIds, fulltextIds, graph, db, docTypes);
      var ids := TopTen(vectorIds, fulltextIds, graph);
      && (forall row :: row in rows <==> row.id in ids && Served(row, db, docTypes))
      && InOrderOf(rows, ids) && DistinctIds(rows)
  {
    hide Fused, Hydrate;
    var rankings := [vectorIds, fulltextIds, GraphIds(graph)];
    var ids := Take(Fused(rankings, RRF_K), RERANK_CANDIDATES);
    assert ids == TopTen(vectorIds, fulltextIds, graph);
    FusedMembers(rankings, RRF_K);
    assert Distinct(ids);
    HydrateKeepsOrder(ids, db, docTypes);
    forall row
      ensures row in Hydrate(ids, db, docTypes) <==> row.id in ids && Served(row, db, docTypes)
    {
      HydrateMembers(ids, db, docTypes, row);
    }
    var rows := Hydrate(ids, db, docTypes);
    forall i, j | 0 <= i < j < |rows| ensures rows[i].id != rows[j].id {
      BeforeIsAntisymmetric(ids, rows[i].id, rows[j].id);
    }
  }

  // When the graph found these ids, they are the third ranking that is fused.
  lemma GraphIdsAreFused(
      vectorIds: seq<Id>, fulltextIds: seq<Id>, ids: seq<Id>, db: Table, docTypes: seq<DocumentType>, row: Row)
    ensures row in Candidates(vectorIds, fulltextIds, Found(ids), db, docTypes)
       <==> (&& row.id in Take(Fused([vectorIds, fulltextIds, ids], 60), 10)
             && row.id in db && db[row.id] == row && row.status == Ready
             && (docTypes == [] || row.docType in docTypes))
  {
    hide Candidates, Fused;
    CandidatesFacts(vectorIds, fulltextIds, Found(ids), db, docTypes);
  }

  // ----- When nothing is cut off -----

  lemma {:induction false} DistinctCount<T(!new)>(xs: seq<T>)
    requires Distinct(xs)
    ensures |set x | x in xs| == |xs|
  {
    if xs != [] {
      DistinctCount(xs[1..]);
      assert (set x | x in xs) == {xs[0]} + set x | x in xs[1..];
    }
  }

  lemma {:induction false} FewValues<T(!new)>(xs: seq<T>)
    ensures |set x | x in xs| <= |xs|
  {
    if xs != [] {
      FewValues(xs[1..]);
      assert (set x | x in xs) == {xs[0]} + set x | x in xs[1..];
    }
  }

  lemma FewerOrEqual<T>(small: set<T>, large: set<T>)
    requires small <= large
    ensures |small| <= |large|
    ensures |small| == |large| ==> small == large
  {
    assert large == small + (large - small);
  }

  // Ten ids altogether are all among the first ten.
  lemma AllFused(vectorIds: seq<Id>, fulltextIds: seq<Id>, graph: GraphOutcome, graphIds: seq<Id>, id: Id)
    requires graphIds == match graph case Found(ids) => ids case Disabled => [] case Raised => []
    requires |vectorIds| + |fulltextIds| + |graphIds| <= 10
    requires id in vectorIds || id in fulltextIds || id in graphIds
    ensures id in TopTen(vectorIds, fulltextIds, graph)
  {
    hide Fused;
    var rankings, all := [vectorIds, fulltextIds, graphIds], vectorIds + fulltextIds + graphIds;
    var fused := Fused(rankings, 60);
    FusedMembers(rankings, 60);
    forall x ensures x in all <==> Occurs(rankings, x) {
      assert x in rankings[0] || x in rankings[1] || x in rankings[2] <==> x in all;
    }
    DistinctCount(fused);
    FewValues(all);
    FewerOrEqual(set x | x in fused, set x | x in all);
    assert Take(fused, 10) == fused;
    assert id in all;
  }

  // As many distinct results as there are candidates are all the candidates.
  lemma AllReturned(out: seq<Retrieved>, all: seq<Retrieved>, k: nat, r: Retrieved)
    requires BestOf(out, all, k) && |all| <= k && r in all
    ensures r in out
  {
    DistinctCount(out);
    FewValues(all);
    var returned, candidates := set x | x in out, set x | x in all;
    FewerOrEqual(returned, candidates);
    assert r in candidates;
  }

  // ----- The result -----

  // The best k of the scored candidates: as many as there are up to k; whoever
  // outranks a returned candidate (by score, or by fused order at equal score)
  // is returned too, and earlier; and the order is by nothing else.
  ghost predicate BestOf(out: seq<Retrieved>, all: seq<Retrieved>, k: nat) {
    && |out| == (if k <= |all| then k else |all|)
    && Distinct(out) && (forall r | r in out :: r in all)
    && (forall a, b | a in all && b in out && a != b && Outranks(all, BY_SCORE, a, b) :: Before(out, a, b))
    && (forall a, b | a in out && b in out && Before(out, a, b) :: Outranks(all, BY_SCORE, a, b))
  }

  // Sorting and cutting finds them.
  lemma TopK(rows: seq<Row>, scores: seq<real>, k: nat)
    requires |rows| == |scores| && DistinctIds(rows)
    ensures BestOf(Take(SortDescending(Scored(rows, scores), BY_SCORE), k), Scored(rows, scores), k)
  {
    hide SortDescending;
    var all := Scored(rows, scores);
    var sorted := SortDescending(all, BY_SCORE);
    var out := Take(sorted, k);
    SortKeepsItems(all, BY_SCORE);
    assert Distinct(all);
    SortIsDistinct(all, BY_SCORE);
    forall r | r in out ensures r in all {
      SortMember(all, BY_SCORE, r);
    }
    forall a, b | a in all && b in out && a != b && Outranks(all, BY_SCORE, a, b)
      ensures Before(out, a, b)
    {
      SortedBefore(all, BY_SCORE, a, b);
      PrefixKeepsBefore(sorted, |out|, a, b);
    }
    forall a, b | a in out && b in out && Before(out, a, b)
      ensures Outranks(all, BY_SCORE, a, b)
    {
      BeforeIsAntisymmetric(out, a, b);
      SortedBefore(all, BY_SCORE, a, b);
      BeforeInPrefix(sorted, |out|, a, b);
    }
  }

  // There is only one such list.
  lemma {:induction false} BestIsUnique(out: seq<Retrieved>, other: seq<Retrieved>, all: seq<Retrieved>, k: nat, n: nat)
    requires Distinct(all) && BestOf(out, all, k) && BestOf(other, all, k) && n <= |out|
    ensures out[..n] == other[..n]
  {
    if n > 0 {
      var i := n - 1;
      BestIsUnique(out, other, all, k, i);
      var a, b := out[i], other[i];
      assert a in out && b in other && a in all && b in all;
      if a != b {
        BeforeIsTotal(all, a, b);
        if Outranks(all, BY_SCORE, a, b) {
          EarlierInPrefix(other, out, a, b, i);
        } else {
          EarlierInPrefix(out, other, b, a, i);
        }
      }
      assert out[..n] == out[..i] + [a] && other[..n] == other[..i] + [b];
    }
  }

  // What comes before place i of one list is not at place i of the other.
  lemma EarlierInPrefix(xs: seq<Retrieved>, ys: seq<Retrieved>, a: Retrieved, b: Retrieved, i: nat)
    requires i < |xs| && i < |ys| && xs[..i] == ys[..i] && Distinct(xs) && Distinct(ys)
    requires xs[i] == b && ys[i] == a
    ensures !Before(xs, a, b)
  {
    forall p, q | 0 <= p < q < |xs| && xs[q] == b ensures xs[p] != a {
      assert q == i && xs[..i][p] == ys[..i][p];
    }
  }

  lemma BeforeInPrefix<T(!new)>(xs: seq<T>, n: nat, a: T, b: T)
    requires n <= |xs| && Before(xs[..n], a, b)
    ensures Before(xs, a, b)
  {
    var i, j :| 0 <= i < j < n && xs[..n][i] == a && xs[..n][j] == b;
    assert xs[i] == a && xs[j] == b;
  }

  // What a search returns: an error exactly when the reranker returned another
  // number of scores than it was given passages, else the best candidates.
  ghost predicate IsAnswer(
      result: Result<seq<Retrieved>, SearchError>, query: string, topK: Option<nat>, docTypes: seq<DocumentType>,
      vectorIds: seq<Id>, fulltextIds: seq<Id>, graph: GraphOutcome,
      db: Table, rerank: (string, seq<string>) -> seq<real>)
  {
    var nothing := vectorIds == [] && fulltextIds == [] && (graph.Found? ==> graph.ids == []);
    var rows := Candidates(vectorIds, fulltextIds, graph, db, docTypes);
    var scores := rerank(query, Passages(rows));
    match result
    case Err(error) => error == ScoreCountMismatch && !nothing && |scores| != |rows|
    case Ok(out) =>
      if nothing then out == []
      else |scores| == |rows| && BestOf(out, Scored(rows, scores), EffectiveTopK(topK))
  }

  // Distinct chunks that are READY, of a requested type and among the first ten
  // fused ids, whatever ids the graph supplied, by descending score.
  ghost predicate Sound(
      out: seq<Retrieved>, topK: Option<nat>, docTypes: seq<DocumentType>,
      vectorIds: seq<Id>, fulltextIds: seq<Id>, graph: GraphOutcome, db: Table)
  {
    var ids := TopTen(vectorIds, fulltextIds, graph);
    && |out| <= (if topK.Some? && topK.value != 0 then topK.value else 5)
    && (forall i, j | 0 <= i < j < |out| :: out[i].row.id != out[j].row.id)
    && (forall i, j | 0 <= i < j < |out| ::
          out[i].score > out[j].score || (out[i].score == out[j].score && Before(ids, out[i].row.id, out[j].row.id)))
    && (forall r | r in out :: r.row.id in ids && Served(r.row, db, docTypes))
  }

  // At most ten ids and room for ten results: whatever row any of the three
  // sources found, the graph included, is returned if it may be.
  ghost predicate NothingFoundIsMissing(
      out: seq<Retrieved>, topK: Option<nat>, docTypes: seq<DocumentType>,
      vectorIds: seq<Id>, fulltextIds: seq<Id>, graph: GraphOutcome, db: Table)
  {
    |vectorIds| + |fulltextIds| + (if graph.Found? then |graph.ids| else 0) <= 10 && topK.Some? && topK.value >= 10 ==>
      forall row: Row ::
        && (row.id in vectorIds || row.id in fulltextIds || (graph.Found? && row.id in graph.ids))
        && Served(row, db, docTypes)
        ==> exists r :: r in out && r.row == row
  }

  // No candidate that the reranker scored is left out for a lower one.
  ghost predicate NoBetterOmitted(out: seq<Retrieved>, all: seq<Retrieved>) {
    forall r, c | r in out && c in all && c !in out :: c.score <= r.score
  }

  method Search(
      query: string, topK: Option<nat>, docTypes: seq<DocumentType>,
      vectorIds: seq<Id>, fulltextIds: seq<Id>, graph: GraphOutcome,
      db: Table, rerank: (string, seq<string>) -> seq<real>)
    returns (result: Result<seq<Retrieved>, SearchError>)
    ensures IsAnswer(result, query, topK, docTypes, vectorIds, fulltextIds, graph, db, rerank)
    ensures result.Ok? ==> Sound(result.value, topK, docTypes, vectorIds, fulltextIds, graph, db)
    ensures result.Ok? ==> NothingFoundIsMissing(result.value, topK, docTypes, vectorIds, fulltextIds, graph, db)
    ensures result.Ok? ==>
      var rows := Candidates(vectorIds, fulltextIds, graph, db, docTypes);
      var scores := rerank(query, Passages(rows));
      |scores| == |rows| ==> NoBetterOmitted(result.value, Scored(rows, scores))
  {
    hide Fused, Hydrate, Passages, SortDescending;
    var graphIds: seq<Id> := [];
    match graph {
      case Disabled =>
      case Found(ids) => graphIds := ids;
      case Raised =>  // logged; the search goes on without the graph
    }
    NothingFused(vectorIds, fulltextIds, GraphIds(graph));
    var fused := RrfFuse([vectorIds, fulltextIds, graphIds], None);
    var fusedIds := Take(fused, RERANK_CANDIDATES);
    if fusedIds == [] {
      return Ok([]);
    }
    CandidatesFacts(vectorIds, fulltextIds, graph, db, docTypes);
    var ordered := Hydrate(fusedIds, db, docTypes);
    var scores := rerank(query, Passages(ordered));
    if |scores| != |ordered| {
      return Err(ScoreCountMismatch);
    }
    var reranked := SortDescending(Scored(ordered, scores), BY_SCORE);
    result := Ok(Take(reranked, EffectiveTopK(topK)));
    TopK(ordered, scores, EffectiveTopK(topK));
    SearchIsSound(result.value, query, topK, docTypes, vectorIds, fulltextIds, graph, db, scores);
  }

  lemma NothingFused(vectorIds: seq<Id>, fulltextIds: seq<Id>, graphIds: seq<Id>)
    ensures Fused([vectorIds, fulltextIds, graphIds], RRF_K) == []
       <==> vectorIds == [] && fulltextIds == [] && graphIds == []
  {
    hide Fused;
    var rankings := [vectorIds, fulltextIds, graphIds];
    FusedMembers(rankings, RRF_K);
    var fused := Fused(rankings, RRF_K);
    if fused != [] {
      assert fused[0] in fused && Occurs(rankings, fused[0]);
    }
    forall i | 0 <= i < 3 && rankings[i] != [] ensures fused != [] {
      assert rankings[i][0] in rankings[i] && Occurs(rankings, rankings[i][0]);
      assert rankings[i][0] in fused;
    }
    assert rankings[0] == vectorIds && rankings[1] == fulltextIds && rankings[2] == graphIds;
  }

  lemma SearchIsSound(
      out: seq<Retrieved>, query: string, topK: Option<nat>, docTypes: seq<DocumentType>,
      vectorIds: seq<Id>, fulltextIds: seq<Id>, graph: GraphOutcome, db: Table, scores: seq<real>)
    requires |scores| == |Candidates(vectorIds, fulltextIds, graph, db, docTypes)|
    requires BestOf(out, Scored(Candidates(vectorIds, fulltextIds, graph, db, docTypes), scores), EffectiveTopK(topK))
    ensures Sound(out, topK, docTypes, vectorIds, fulltextIds, graph, db)
    ensures NothingFoundIsMissing(out, topK, docTypes, vectorIds, fulltextIds, graph, db)
    ensures NoBetterOmitted(out, Scored(Candidates(vectorIds, fulltextIds, graph, db, docTypes), scores))
  {
    hide Candidates, TopTen, Served;
    var rows := Candidates(vectorIds, fulltextIds, graph, db, docTypes);
    var all := Scored(rows, scores);
    var ids := TopTen(vectorIds, fulltextIds, graph);
    NothingMissing(out, topK, docTypes, vectorIds, fulltextIds, graph, db, scores);
    hide NothingFoundIsMissing;
    CandidatesFacts(vectorIds, fulltextIds, graph, db, docTypes);
    forall i, j | 0 <= i < j < |out|
      ensures out[i].row.id != out[j].row.id
      ensures out[i].score > out[j].score
           || (out[i].score == out[j].score && Before(ids, out[i].row.id, out[j].row.id))
    {
      assert out[i] in out && out[j] in out && Before(out, out[i], out[j]);
      assert Outranks(all, BY_SCORE, out[i], out[j]);
      BeforeIsAntisymmetric(out, out[i], out[j]);
      SameIdSameCandidate(rows, scores, out[i], out[j]);
      if Before(all, out[i], out[j]) {
        var p, q :| 0 <= p < q < |all| && all[p] == out[i] && all[q] == out[j];
        assert Before(ids, rows[p].id, rows[q].id);
      }
    }
    forall r | r in out ensures r.row.id in ids && Served(r.row, db, docTypes) {
      assert r in all;
      assert r.row in rows;
    }
    forall r, c | r in out && c in all && c !in out ensures c.score <= r.score {
      assert c.score > r.score ==> Outranks(all, BY_SCORE, c, r);
    }
  }

  lemma NothingMissing(
      out: seq<Retrieved>, topK: Option<nat>, docTypes: seq<DocumentType>,
      vectorIds: seq<Id>, fulltextIds: seq<Id>, graph: GraphOutcome, db: Table, scores: seq<real>)
    requires |scores| == |Candidates(vectorIds, fulltextIds, graph, db, docTypes)|
    requires BestOf(out, Scored(Candidates(vectorIds, fulltextIds, graph, db, docTypes), scores), EffectiveTopK(topK))
    ensures NothingFoundIsMissing(out, topK, docTypes, vectorIds, fulltextIds, graph, db)
  {
    hide Candidates, TopTen, Served, BestOf;
    var rows := Candidates(vectorIds, fulltextIds, graph, db, docTypes);
    var graphIds := match graph case Found(ids) => ids case Disabled => [] case Raised => [];
    if |vectorIds| + |fulltextIds| + |graphIds| <= 10 && topK.Some? && topK.value >= 10 {
      CandidatesFacts(vectorIds, fulltextIds, graph, db, docTypes);
      AtMostTen(vectorIds, fulltextIds, graph, db, docTypes);
      forall row: Row |
        && (row.id in vectorIds || row.id in fulltextIds || row.id in graphIds)
        && Served(row, db, docTypes)
        ensures exists r :: r in out && r.row == row
      {
        AllFused(vectorIds, fulltextIds, graph, graphIds, row.id);
        var i :| 0 <= i < |rows| && rows[i] == row;
        var r := Scored(rows, scores)[i];
        AllReturned(out, Scored(rows, scores), EffectiveTopK(topK), r);
      }
    }
  }

  lemma AtMostTen(
      vectorIds: seq<Id>, fulltextIds: seq<Id>, graph: GraphOutcome, db: Table, docTypes: seq<DocumentType>)
    ensures |Candidates(vectorIds, fulltextIds, graph, db, docTypes)| <= 10
  {
    hide Fused;
    HydrateLength(Take(Fused([vectorIds, fulltextIds, GraphIds(graph)], RRF_K), RERANK_CANDIDATES), db, docTypes);
  }

  lemma {:induction false} HydrateLength(ids: seq<Id>, db: Table, docTypes: seq<DocumentType>)
    ensures |Hydrate(ids, db, docTypes)| <= |ids|
  {
    if ids != [] {
      HydrateLength(ids[1..], db, docTypes);
    }
  }

  lemma SameIdSameCandidate(rows: seq<Row>, scores: seq<real>, a: Retrieved, b: Retrieved)
    requires |rows| == |scores| && DistinctIds(rows)
    requires a in Scored(rows, scores) && b in Scored(rows, scores) && a != b
    ensures a.row.id != b.row.id
  {
    var all := Scored(rows, scores);
    var i :| 0 <= i < |all| && all[i] == a;
    var j :| 0 <= j < |all| && all[j] == b;
    assert i < j || j < i;
  }

  // A search whose graph fails answers as one whose graph finds nothing, or as
  // one without a graph: what a search may answer is determined by the ids.
  lemma GraphFailureIsEmptyRanking(
      failed: Result<seq<Retrieved>, SearchError>, other: Result<seq<Retrieved>, SearchError>, graph: GraphOutcome,
      query: string, topK: Option<nat>, docTypes: seq<DocumentType>, vectorIds: seq<Id>, fulltextIds: seq<Id>,
      db: Table, rerank: (string, seq<string>) -> seq<real>)
    requires graph in {Disabled, Found([])}
    requires IsAnswer(failed, query, topK, docTypes, vectorIds, fulltextIds, Raised, db, rerank)
    requires IsAnswer(other, query, topK, docTypes, vectorIds, fulltextIds, graph, db, rerank)
    ensures failed == other
  {
    hide Fused, Hydrate, Passages, BestOf;
    var rows := Candidates(vectorIds, fulltextIds, Raised, db, docTypes);
    assert rows == Candidates(vectorIds, fulltextIds, graph, db, docTypes);
    CandidatesFacts(vectorIds, fulltextIds, Raised, db, docTypes);
    var scores := rerank(query, Passages(rows));
    if failed.Ok? && other.Ok? && |scores| == |rows| && (vectorIds != [] || fulltextIds != []) {
      SameBest(failed.value, other.value, rows, scores, EffectiveTopK(topK));
    }
  }

  lemma SameBest(out: seq<Retrieved>, other: seq<Retrieved>, rows: seq<Row>, scores: seq<real>, k: nat)
    requires |rows| == |scores| && DistinctIds(rows)
    requires BestOf(out, Scored(rows, scores), k) && BestOf(other, Scored(rows, scores), k)
    ensures out == other
  {
    assert Distinct(Scored(rows, scores));
    BestIsUnique(out, other, Scored(rows, scores), k, |out|);
    assert out[..|out|] == out && other[..|out|] == other;
  }
}
