// The graph store (app/graph/service.py): its fields are the nodes and edges,
// a rebuild runs its four statements, and a search runs its two queries and
// merges their scores. The ghost field `builds` is the last build of each document.

module GraphService {
  import opened Ranking
  import opened EntityGraph
  import opened GraphSearch

  datatype QueryRow = QueryRow(chunkId: ChunkId, matches: nat)

  // A Python dict of scores, with its keys in insertion order.
  datatype Scores = Scores(order: seq<ChunkId>, values: map<ChunkId, real>)

  ghost predicate Consistent(scores: Scores) {
    Distinct(scores.order) && forall c :: c in scores.order <==> c in scores.values
  }

  function ScoreOf(scores: Scores): ChunkId -> real {
    (c: ChunkId) => Get(scores, c)
  }

  // scores.get(c, 0.0)
  function Get(scores: Scores, c: ChunkId): real {
    if c in scores.values then scores.values[c] else 0.0
  }

  function Put(scores: Scores, c: ChunkId, score: real): Scores {
    Scores(if c in scores.values then scores.order else scores.order + [c], scores.values[c := score])
  }

  function Or0(counts: map<ChunkId, nat>, c: ChunkId): real {
    if c in counts then counts[c] as real else 0.0
  }

  // What the dict holds once all rows of both queries are in.
  ghost predicate Merged(scores: Scores, direct: map<ChunkId, nat>, expanded: map<ChunkId, nat>, done: set<ChunkId>) {
    && Consistent(scores)
    && scores.values.Keys == direct.Keys + done
    && forall c | c in scores.values ::
         scores.values[c] == Or0(direct, c) + (if c in done then Or0(expanded, c) * EXPANSION_WEIGHT else 0.0)
  }

  // Rows for the chunks in `done`, one each, with the counted matches.
  ghost predicate RowsFor(rows: seq<QueryRow>, counts: map<ChunkId, nat>, done: set<ChunkId>) {
    && (forall i, j | 0 <= i < j < |rows| :: rows[i].chunkId != rows[j].chunkId)
    && (forall i | 0 <= i < |rows| :: rows[i].chunkId in counts && rows[i].matches == counts[rows[i].chunkId])
    && RowChunks(rows) == done
  }

  ghost function RowChunks(rows: seq<QueryRow>): set<ChunkId> {
    set r | r in rows :: r.chunkId
  }

  lemma RowsForMore(rows: seq<QueryRow>, counts: map<ChunkId, nat>, done: set<ChunkId>, c: ChunkId)
    requires RowsFor(rows, counts, done) && c in counts && c !in done
    ensures RowsFor(rows + [QueryRow(c, counts[c])], counts, done + {c})
  {
    forall i | 0 <= i < |rows| ensures rows[i].chunkId != c {
      assert rows[i] in rows;
    }
    RowChunksSnoc(rows, QueryRow(c, counts[c]));
  }

  // A query returns its rows in an arbitrary order.
  method Rows(counts: map<ChunkId, nat>) returns (rows: seq<QueryRow>)
    ensures RowsFor(rows, counts, counts.Keys)
  {
    rows := [];
    var todo := counts.Keys;
    assert RowsFor(rows, counts, counts.Keys - todo);
    hide RowsFor;
    while todo != {}
      invariant todo <= counts.Keys && RowsFor(rows, counts, counts.Keys - todo)
      decreases |todo|
    {
      var c :| c in todo;
      RowsForMore(rows, counts, counts.Keys - todo, c);
      assert counts.Keys - (todo - {c}) == (counts.Keys - todo) + {c};
      rows := rows + [QueryRow(c, counts[c])];
      todo := todo - {c};
    }
    assert counts.Keys - todo == counts.Keys;
  }

  lemma RowChunksSnoc(rows: seq<QueryRow>, row: QueryRow)
    ensures RowChunks(rows + [row]) == RowChunks(rows) + {row.chunkId}
  {
  }

  lemma RowChunksPrefix(rows: seq<QueryRow>, i: nat, counts: map<ChunkId, nat>)
    requires i < |rows| && RowsFor(rows, counts, counts.Keys)
    ensures RowChunks(rows[..i + 1]) == RowChunks(rows[..i]) + {rows[i].chunkId}
    ensures rows[i].chunkId !in RowChunks(rows[..i])
    ensures rows[i].chunkId in counts && rows[i].matches == counts[rows[i].chunkId]
  {
    assert rows[..i + 1] == rows[..i] + [rows[i]];
    RowChunksSnoc(rows[..i], rows[i]);
  }

  lemma RowChunksAll(rows: seq<QueryRow>, counts: map<ChunkId, nat>)
    requires RowsFor(rows, counts, counts.Keys)
    ensures RowChunks(rows[..|rows|]) == counts.Keys && RowChunks(rows[..0]) == {}
  {
    assert rows[..|rows|] == rows;
  }

  lemma PutConsistent(scores: Scores, c: ChunkId, score: real)
    requires Consistent(scores)
    ensures Consistent(Put(scores, c, score))
  {
  }

  // The dict after the rows of the direct query.
  ghost predicate DirectIn(scores: Scores, direct: map<ChunkId, nat>, done: set<ChunkId>) {
    && Consistent(scores) && scores.values.Keys == done
    && forall c | c in scores.values :: c in direct && scores.values[c] == direct[c] as real
  }

  lemma DirectOne(scores: Scores, direct: map<ChunkId, nat>, done: set<ChunkId>, c: ChunkId)
    requires DirectIn(scores, direct, done) && c in direct
    ensures DirectIn(Put(scores, c, direct[c] as real * 1.0), direct, done + {c})
  {
    PutConsistent(scores, c, direct[c] as real * 1.0);
  }

  lemma DirectDone(scores: Scores, direct: map<ChunkId, nat>, expanded: map<ChunkId, nat>)
    requires DirectIn(scores, direct, direct.Keys)
    ensures Merged(scores, direct, expanded, {})
  {
  }

  // The first loop: scores[chunk_id] = matches * 1.0
  method AddDirect(direct: map<ChunkId, nat>) returns (scores: Scores)
    ensures DirectIn(scores, direct, direct.Keys)
  {
    var rows := Rows(direct);
    scores := Scores([], map[]);
    assert DirectIn(scores, direct, {});
    hide RowsFor, RowChunks, DirectIn, Put;
    RowChunksAll(rows, direct);
    for i := 0 to |rows|
      invariant DirectIn(scores, direct, RowChunks(rows[..i]))
    {
      RowChunksPrefix(rows, i, direct);
      DirectOne(scores, direct, RowChunks(rows[..i]), rows[i].chunkId);
      scores := Put(scores, rows[i].chunkId, rows[i].matches as real * 1.0);
    }
  }

  // The second loop: scores[chunk_id] = scores.get(chunk_id, 0.0) + matches * weight
  method AddExpanded(start: Scores, ghost direct: map<ChunkId, nat>, expanded: map<ChunkId, nat>)
    returns (scores: Scores)
    requires Merged(start, direct, expanded, {})
    ensures Merged(scores, direct, expanded, expanded.Keys)
  {
    hide RowsFor, RowChunks, Merged, Put, Get;
    var rows := Rows(expanded);
    scores := start;
    RowChunksAll(rows, expanded);
    for i := 0 to |rows|
      invariant Merged(scores, direct, expanded, RowChunks(rows[..i]))
    {
      RowChunksPrefix(rows, i, expanded);
      MergeOne(scores, direct, expanded, RowChunks(rows[..i]), rows[i].chunkId);
      scores := Put(scores, rows[i].chunkId, Get(scores, rows[i].chunkId) + rows[i].matches as real * EXPANSION_WEIGHT);
    }
  }

  lemma MergeOne(scores: Scores, direct: map<ChunkId, nat>, expanded: map<ChunkId, nat>, done: set<ChunkId>, c: ChunkId)
    requires Merged(scores, direct, expanded, done) && c in expanded && c !in done
    ensures Merged(
      Put(scores, c, Get(scores, c) + expanded[c] as real * EXPANSION_WEIGHT), direct, expanded, done + {c})
  {
    PutConsistent(scores, c, Get(scores, c) + expanded[c] as real * EXPANSION_WEIGHT);
  }

  // ----- The result of a search -----

  // `ids` are the best `limit` chunks with evidence, in descending order of it.
  ghost predicate BestByEvidence(ids: seq<ChunkId>, builds: Builds, tenant: string, norms: seq<string>, limit: nat) {
    && Distinct(ids) && |ids| <= limit
    && (forall i | 0 <= i < |ids| :: HasEvidence(builds, tenant, norms, ids[i]))
    && (forall i, j | 0 <= i < j < |ids| ::
          Evidence(builds, tenant, norms, ids[i]) >= Evidence(builds, tenant, norms, ids[j]))
    && (forall c | HasEvidence(builds, tenant, norms, c) && c !in ids :: |ids| == limit
          && forall i | 0 <= i < |ids| :: Evidence(builds, tenant, norms, ids[i]) >= Evidence(builds, tenant, norms, c))
  }

  lemma MergedIsEvidence(scores: Scores, g: Graph, builds: Builds, tenant: string, norms: seq<string>)
    requires Agrees(g, builds) && IsTenant(tenant)
    requires var d, e := DirectCounts(g, tenant, norms), ExpandedCounts(g, tenant, norms); Merged(scores, d, e, e.Keys)
    ensures forall c :: c in scores.order <==> HasEvidence(builds, tenant, norms, c)
    ensures forall c | c in scores.order :: ScoreOf(scores)(c) == Evidence(builds, tenant, norms, c)
  {
    hide Agrees, Direct, Expanded, DirectCounts, ExpandedCounts;
    var d, e := DirectCounts(g, tenant, norms), ExpandedCounts(g, tenant, norms);
    forall c
      ensures c in scores.order <==> HasEvidence(builds, tenant, norms, c)
      ensures c in scores.order ==> ScoreOf(scores)(c) == Evidence(builds, tenant, norms, c)
    {
      QueriesCountEvidence(g, builds, tenant, norms, c);
      if c !in d {
        assert Direct(builds, tenant, norms, c) == {};
      }
      if c !in e {
        assert Expanded(builds, tenant, norms, c) == {};
      }
    }
  }

  // Sorting by a score that is the evidence ranks by evidence.
  lemma SortedByEvidence(scores: Scores, ranked: seq<ChunkId>, builds: Builds, tenant: string, norms: seq<string>)
    requires Distinct(scores.order) && ranked == SortDescending(scores.order, ScoreOf(scores))
    requires forall c :: c in scores.order <==> HasEvidence(builds, tenant, norms, c)
    requires forall c | c in scores.order :: ScoreOf(scores)(c) == Evidence(builds, tenant, norms, c)
    ensures Distinct(ranked)
    ensures forall c :: c in ranked <==> HasEvidence(builds, tenant, norms, c)
    ensures forall i, j | 0 <= i < j < |ranked| ::
      Evidence(builds, tenant, norms, ranked[i]) >= Evidence(builds, tenant, norms, ranked[j])
  {
    hide HasEvidence, Evidence, SortDescending, Get;
    var score := ScoreOf(scores);
    SortIsDistinct(scores.order, score);
    SortIsDescending(scores.order, score);
    forall c ensures c in ranked <==> HasEvidence(builds, tenant, norms, c) {
      SortMember(scores.order, score, c);
    }
    forall i | 0 <= i < |ranked| ensures score(ranked[i]) == Evidence(builds, tenant, norms, ranked[i]) {
      var c := ranked[i];
      assert c in ranked;
      assert c in scores.order;
    }
  }

  lemma BestOfSorted(scores: Scores, builds: Builds, tenant: string, norms: seq<string>, limit: nat)
    requires Consistent(scores)
    requires forall c :: c in scores.order <==> HasEvidence(builds, tenant, norms, c)
    requires forall c | c in scores.order :: ScoreOf(scores)(c) == Evidence(builds, tenant, norms, c)
    ensures BestByEvidence(Take(SortDescending(scores.order, ScoreOf(scores)), limit), builds, tenant, norms, limit)
  {
    hide HasEvidence, Evidence, SortDescending, Consistent, ScoreOf;
    var ranked := SortDescending(scores.order, ScoreOf(scores));
    var ids := Take(ranked, limit);
    ConsistentOrder(scores);
    SortedByEvidence(scores, ranked, builds, tenant, norms);
    forall i | 0 <= i < |ids| ensures HasEvidence(builds, tenant, norms, ids[i]) {
      assert ids[i] in ranked;
    }
    forall c | HasEvidence(builds, tenant, norms, c) && c !in ids
      ensures |ids| == limit
      ensures forall i | 0 <= i < |ids| :: Evidence(builds, tenant, norms, ids[i]) >= Evidence(builds, tenant, norms, c)
    {
      assert c in ranked;
      var j :| 0 <= j < |ranked| && ranked[j] == c;
      assert j >= |ids|;
    }
  }

  lemma ConsistentOrder(scores: Scores)
    requires Consistent(scores)
    ensures Distinct(scores.order)
  {
  }

  lemma MergeNothing(g: Graph, tenant: string, doc: DocId)
    ensures MergeChunks(g, tenant, doc, []) == g && MergeMentions(g, tenant, []) == g
  {
  }

  lemma MergeChunksStep(g: Graph, tenant: string, doc: DocId, rows: seq<ChunkRow>, i: nat)
    requires i < |rows|
    ensures MergeChunks(g, tenant, doc, rows[..i + 1])
         == MergeChunk(MergeChunks(g, tenant, doc, rows[..i]), tenant, doc, rows[i])
  {
    assert rows[..i + 1][..i] == rows[..i];
  }

  lemma MergeMentionsStep(g: Graph, tenant: string, rows: seq<MentionRow>, i: nat)
    requires i < |rows|
    ensures MergeMentions(g, tenant, rows[..i + 1])
         == MergeMention(MergeMentions(g, tenant, rows[..i]), tenant, rows[i])
  {
    assert rows[..i + 1][..i] == rows[..i];
  }

  class GraphStore {
    var documents: map<DocId, DocumentNode>
    var chunks: map<ChunkId, ChunkNode>
    var entities: map<string, EntityNode>
    var partOf: set<PartOf>
    var mentions: set<Mention>
    ghost var builds: Builds

    function Snapshot(): Graph
      reads this
    {
      Graph(documents, chunks, entities, partOf, mentions)
    }

    ghost predicate Valid()
      reads this
    {
      Agrees(Snapshot(), builds)
    }

    constructor ()
      ensures Valid() && builds == map[]
    {
      documents, chunks, entities, partOf, mentions := map[], map[], map[], {}, {};
      builds := map[];
      new;
      EmptyAgrees();
    }

    // One write transaction: whatever was stored before, the graph now holds
    // this build of the document and nothing of its earlier ones.
    method RebuildDocument(tenant: string, doc: DocId, title: string, docType: string, build: seq<ChunkEntities>)
      returns (mentionCount: nat)
      requires Valid() && IsTenant(tenant) && FreshFor(builds, DocKey(tenant, doc), build)
      modifies this
      ensures Valid() && builds == old(builds)[DocKey(tenant, doc) := build]
      ensures mentionCount == |MentionRows(tenant, build)|
    {
      hide Agrees, MentionRows, ChunkRows, DeleteChunks, MergeChunks, MergeMentions;
      var chunkRows, mentionRows := ChunkRows(build), MentionRows(tenant, build);
      ghost var start := Snapshot();
      RunDelete(tenant, doc);
      documents := documents[doc := DocumentNode(tenant, title, docType)];
      RunChunkRows(tenant, doc, chunkRows);
      RunMentionRows(tenant, mentionRows);
      RebuiltAgrees(start, builds, DocKey(tenant, doc), title, docType, build);
      builds := builds[DocKey(tenant, doc) := build];
      mentionCount := |mentionRows|;
    }

    // MATCH (c:Chunk ...) DETACH DELETE c
    method RunDelete(tenant: string, doc: DocId)
      modifies this`chunks, this`partOf, this`mentions
      ensures Snapshot() == DeleteChunks(old(Snapshot()), tenant, doc)
    {
      hide Deleted;
      partOf := set p | p in partOf && !Deleted(chunks, tenant, doc, p.chunk);
      mentions := set m | m in mentions && !Deleted(chunks, tenant, doc, m.chunk);
      chunks := map c | c in chunks && !Deleted(chunks, tenant, doc, c) :: chunks[c];
    }

    // UNWIND $rows over the chunk statement
    method RunChunkRows(tenant: string, doc: DocId, rows: seq<ChunkRow>)
      modifies this`chunks, this`partOf
      ensures Snapshot() == MergeChunks(old(Snapshot()), tenant, doc, rows)
    {
      hide MergeChunks, MergeMentions;
      MergeNothing(Snapshot(), tenant, doc);
      for i := 0 to |rows|
        invariant Snapshot() == MergeChunks(old(Snapshot()), tenant, doc, rows[..i])
      {
        MergeChunksStep(old(Snapshot()), tenant, doc, rows, i);
        chunks := chunks[rows[i].chunkId := ChunkNode(tenant, doc, rows[i].chunkIndex)];
        partOf := partOf + {PartOf(rows[i].chunkId, doc)};
      }
      assert rows[..|rows|] == rows;
    }

    // UNWIND $rows over the mention statement
    method RunMentionRows(tenant: string, rows: seq<MentionRow>)
      modifies this`entities, this`mentions
      ensures Snapshot() == MergeMentions(old(Snapshot()), tenant, rows)
    {
      hide MergeChunks, MergeMentions;
      MergeNothing(Snapshot(), tenant, "");
      for i := 0 to |rows|
        invariant Snapshot() == MergeMentions(old(Snapshot()), tenant, rows[..i])
      {
        MergeMentionsStep(old(Snapshot()), tenant, rows, i);
        if rows[i].chunkId in chunks {
          if rows[i].key !in entities {
            entities := entities[rows[i].key := EntityNode(tenant, rows[i].norm)];
          }
          mentions := mentions + {Mention(rows[i].chunkId, rows[i].key)};
        }
      }
      assert rows[..|rows|] == rows;
    }

    // The ranking is a function of the last builds alone.
    method Search(tenant: string, norms: seq<string>, limit: nat) returns (ids: seq<ChunkId>)
      requires Valid() && IsTenant(tenant)
      ensures BestByEvidence(ids, builds, tenant, norms, limit)
    {
      hide Agrees, DirectCounts, ExpandedCounts, SortDescending, DirectIn, Merged, BestByEvidence,
        HasEvidence, Evidence;
      var g := Snapshot();
      var direct, expanded := DirectCounts(g, tenant, norms), ExpandedCounts(g, tenant, norms);
      var scores := AddDirect(direct);
      DirectDone(scores, direct, expanded);
      scores := AddExpanded(scores, direct, expanded);
      MergedIsEvidence(scores, g, builds, tenant, norms);
      MergedIsConsistent(scores, direct, expanded);
      BestOfSorted(scores, builds, tenant, norms, limit);
      var ranked := SortDescending(scores.order, ScoreOf(scores));
      ids := Take(ranked, limit);
    }
  }

  lemma MergedIsConsistent(scores: Scores, direct: map<ChunkId, nat>, expanded: map<ChunkId, nat>)
    requires Merged(scores, direct, expanded, expanded.Keys)
    ensures Consistent(scores)
  {
  }
}
