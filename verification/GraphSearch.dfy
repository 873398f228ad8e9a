// What graph search means in terms of the builds (app/graph/service.py:118-156):
// the two queries over nodes and edges count exactly the entities that the
// latest build of each document says its chunks mention.

module GraphSearch {
  import opened Extraction
  import opened EntityGraph

  const EXPANSION_WEIGHT: real := 0.4

  // ----- Evidence, from the builds alone -----

  // Query entities that the chunk mentions.
  ghost function Direct(builds: Builds, tenant: string, norms: seq<string>, c: ChunkId): set<string> {
    set s | s in Sayings(builds) && s.tenant == tenant && s.chunk == c && s.norm in norms :: s.norm
  }

  // Other entities mentioned together with a query entity in some chunk of the tenant.
  ghost function Neighbours(builds: Builds, tenant: string, norms: seq<string>): set<string> {
    set q, n | q in Sayings(builds) && n in Sayings(builds) && q.tenant == n.tenant == tenant
      && q.chunk == n.chunk && q.norm in norms && n.norm !in norms :: n.norm
  }

  ghost function Expanded(builds: Builds, tenant: string, norms: seq<string>, c: ChunkId): set<string> {
    set s | s in Sayings(builds) && s.tenant == tenant && s.chunk == c
      && s.norm in Neighbours(builds, tenant, norms) :: s.norm
  }

  ghost predicate HasEvidence(builds: Builds, tenant: string, norms: seq<string>, c: ChunkId) {
    Direct(builds, tenant, norms, c) != {} || Expanded(builds, tenant, norms, c) != {}
  }

  ghost function Evidence(builds: Builds, tenant: string, norms: seq<string>, c: ChunkId): real {
    |Direct(builds, tenant, norms, c)| as real + |Expanded(builds, tenant, norms, c)| as real * EXPANSION_WEIGHT
  }

  // ----- The queries, over nodes and edges -----

  predicate ChunkOf(g: Graph, tenant: string, c: ChunkId) {
    c in g.chunks && g.chunks[c].tenant == tenant
  }

  predicate IsQueryEntity(g: Graph, tenant: string, norms: seq<string>, key: string) {
    key in g.entities && g.entities[key].tenant == tenant && g.entities[key].norm in norms
  }

  // No tenant is asked of the neighbour.
  predicate IsOtherEntity(g: Graph, norms: seq<string>, key: string) {
    key in g.entities && g.entities[key].norm !in norms
  }

  function DirectKeys(g: Graph, tenant: string, norms: seq<string>, c: ChunkId): set<string> {
    set m | m in g.mentions && m.chunk == c && IsQueryEntity(g, tenant, norms, m.key) :: m.key
  }

  function NeighbourKeys(g: Graph, tenant: string, norms: seq<string>): set<string> {
    set q, n | q in g.mentions && n in g.mentions && q.chunk == n.chunk && ChunkOf(g, tenant, q.chunk)
      && IsQueryEntity(g, tenant, norms, q.key) && IsOtherEntity(g, norms, n.key) :: n.key
  }

  function ExpandedKeys(g: Graph, tenant: string, norms: seq<string>, c: ChunkId): set<string> {
    set m | m in g.mentions && m.chunk == c && m.key in NeighbourKeys(g, tenant, norms) :: m.key
  }

  // The rows of DIRECT_QUERY and EXPANSION_QUERY, as chunk id -> matches.
  function DirectCounts(g: Graph, tenant: string, norms: seq<string>): map<ChunkId, nat> {
    map c | c in g.chunks && ChunkOf(g, tenant, c) && DirectKeys(g, tenant, norms, c) != {}
      :: |DirectKeys(g, tenant, norms, c)|
  }

  function ExpandedCounts(g: Graph, tenant: string, norms: seq<string>): map<ChunkId, nat> {
    map c | c in g.chunks && ChunkOf(g, tenant, c) && ExpandedKeys(g, tenant, norms, c) != {}
      :: |ExpandedKeys(g, tenant, norms, c)|
  }

  // ----- Tenants never mix -----

  // Every MENTIONS edge joins a chunk and an entity of one tenant.
  lemma MentionsStayInTenant(g: Graph, builds: Builds, m: Mention)
    requires Agrees(g, builds) && m in g.mentions
    ensures m.chunk in g.chunks && m.key in g.entities
    ensures g.entities[m.key].tenant == g.chunks[m.chunk].tenant
    ensures Said(g.chunks[m.chunk].tenant, m.chunk, g.entities[m.key].norm) in Sayings(builds)
  {
    hide SaidBy, OwnedBy, Key, Owners;
    var s :| s in Sayings(builds) && m == EdgeOf(s);
    var owner :| owner in builds && s in SaidBy(owner.tenant, builds[owner]);
    assert SaidIn(builds, s, owner);
    SayingIsOwned(builds, s, owner);
    var e := g.entities[m.key];
    assert Owned(m.chunk, owner) in Owners(builds);
    KeyIsInjective(s.tenant, s.norm, e.tenant, e.norm);
  }

  // And every saying of the builds is such an edge.
  lemma SayingIsMention(g: Graph, builds: Builds, s: Said)
    requires Agrees(g, builds) && s in Sayings(builds)
    ensures EdgeOf(s) in g.mentions
    ensures IsTenant(s.tenant) && ChunkOf(g, s.tenant, s.chunk)
    ensures Key(s.tenant, s.norm) in g.entities && g.entities[Key(s.tenant, s.norm)] == EntityNode(s.tenant, s.norm)
  {
    hide SaidBy, OwnedBy, Key, Owners;
    var owner :| owner in builds && s in SaidBy(owner.tenant, builds[owner]);
    assert SaidIn(builds, s, owner);
    SayingIsOwned(builds, s, owner);
    assert EdgeOf(s) in g.mentions;
    var e := g.entities[Key(s.tenant, s.norm)];
    KeyIsInjective(s.tenant, s.norm, e.tenant, e.norm);
  }

  // The tenant-unfiltered neighbour of the expansion query is always one of
  // the tenant's own entities.
  lemma NeighboursStayInTenant(g: Graph, builds: Builds, tenant: string, norms: seq<string>, key: string)
    requires Agrees(g, builds) && key in NeighbourKeys(g, tenant, norms)
    ensures key in g.entities && g.entities[key].tenant == tenant
  {
    hide Agrees;
    var q, n :| q in g.mentions && n in g.mentions && q.chunk == n.chunk && ChunkOf(g, tenant, q.chunk)
      && IsQueryEntity(g, tenant, norms, q.key) && IsOtherEntity(g, norms, n.key) && n.key == key;
    MentionsStayInTenant(g, builds, n);
  }

  // ----- Keys and norms correspond -----

  ghost function KeysOf(tenant: string, norms: set<string>): set<string> {
    set n | n in norms :: Key(tenant, n)
  }

  lemma {:induction false} KeysAreAsMany(tenant: string, norms: set<string>)
    requires IsTenant(tenant)
    ensures |KeysOf(tenant, norms)| == |norms|
    decreases |norms|
  {
    hide Key;
    if norms != {} {
      var n :| n in norms;
      var rest := norms - {n};
      KeysAreAsMany(tenant, rest);
      forall x | x in rest ensures Key(tenant, x) != Key(tenant, n) {
        KeyIsInjective(tenant, x, tenant, n);
      }
      assert KeysOf(tenant, norms) == KeysOf(tenant, rest) + {Key(tenant, n)};
    }
  }

  lemma DirectCorresponds(g: Graph, builds: Builds, tenant: string, norms: seq<string>, c: ChunkId)
    requires Agrees(g, builds)
    ensures ChunkOf(g, tenant, c) ==>
      DirectKeys(g, tenant, norms, c) == KeysOf(tenant, Direct(builds, tenant, norms, c))
    ensures Direct(builds, tenant, norms, c) != {} ==> ChunkOf(g, tenant, c)
  {
    hide Agrees, Sayings, Key;
    forall s | s in Sayings(builds) && s.tenant == tenant && s.chunk == c && s.norm in norms
      ensures ChunkOf(g, tenant, c) && Key(tenant, s.norm) in DirectKeys(g, tenant, norms, c)
    {
      SayingIsMention(g, builds, s);
      assert EdgeOf(s) in g.mentions;
    }
    if ChunkOf(g, tenant, c) {
      forall k | k in DirectKeys(g, tenant, norms, c)
        ensures k in KeysOf(tenant, Direct(builds, tenant, norms, c))
      {
        var m := Mention(c, k);
        assert m in g.mentions;
        MentionsStayInTenant(g, builds, m);
        EntityIsItsKey(g, builds, k);
        assert g.entities[k].norm in Direct(builds, tenant, norms, c);
      }
    }
  }

  lemma EntityIsItsKey(g: Graph, builds: Builds, k: string)
    requires Agrees(g, builds) && k in g.entities
    ensures k == Key(g.entities[k].tenant, g.entities[k].norm)
  {
  }

  lemma NeighboursCorrespond(g: Graph, builds: Builds, tenant: string, norms: seq<string>)
    requires Agrees(g, builds)
    ensures NeighbourKeys(g, tenant, norms) == KeysOf(tenant, Neighbours(builds, tenant, norms))
  {
    hide Agrees, Sayings, Key;
    forall q, n | q in Sayings(builds) && n in Sayings(builds) && q.tenant == n.tenant == tenant
      && q.chunk == n.chunk && q.norm in norms && n.norm !in norms
      ensures Key(tenant, n.norm) in NeighbourKeys(g, tenant, norms)
    {
      SayingIsMention(g, builds, q);
      SayingIsMention(g, builds, n);
      assert EdgeOf(q) in g.mentions && EdgeOf(n) in g.mentions;
    }
    forall k | k in NeighbourKeys(g, tenant, norms)
      ensures k in KeysOf(tenant, Neighbours(builds, tenant, norms))
    {
      NeighbourIsSaid(g, builds, tenant, norms, k);
    }
  }

  lemma NeighbourIsSaid(g: Graph, builds: Builds, tenant: string, norms: seq<string>, k: string)
    requires Agrees(g, builds) && k in NeighbourKeys(g, tenant, norms)
    ensures k in KeysOf(tenant, Neighbours(builds, tenant, norms))
  {
    hide Agrees, Sayings, Key;
    var q, n :| q in g.mentions && n in g.mentions && q.chunk == n.chunk && ChunkOf(g, tenant, q.chunk)
      && IsQueryEntity(g, tenant, norms, q.key) && IsOtherEntity(g, norms, n.key) && n.key == k;
    MentionsStayInTenant(g, builds, q);
    MentionsStayInTenant(g, builds, n);
    EntityIsItsKey(g, builds, k);
    var sq := Said(tenant, q.chunk, g.entities[q.key].norm);
    var sn := Said(tenant, n.chunk, g.entities[n.key].norm);
    assert sq in Sayings(builds) && sn in Sayings(builds);
    assert sn.norm in Neighbours(builds, tenant, norms);
  }

  lemma ExpandedCorresponds(g: Graph, builds: Builds, tenant: string, norms: seq<string>, c: ChunkId)
    requires Agrees(g, builds) && IsTenant(tenant)
    ensures ChunkOf(g, tenant, c) ==>
      ExpandedKeys(g, tenant, norms, c) == KeysOf(tenant, Expanded(builds, tenant, norms, c))
    ensures Expanded(builds, tenant, norms, c) != {} ==> ChunkOf(g, tenant, c)
  {
    hide Agrees, Sayings, Key, Neighbours, NeighbourKeys;
    NeighboursCorrespond(g, builds, tenant, norms);
    forall s | s in Sayings(builds) && s.tenant == tenant && s.chunk == c && s.norm in Neighbours(builds, tenant, norms)
      ensures ChunkOf(g, tenant, c) && Key(tenant, s.norm) in ExpandedKeys(g, tenant, norms, c)
    {
      SayingIsMention(g, builds, s);
      assert EdgeOf(s) in g.mentions;
    }
    if ChunkOf(g, tenant, c) {
      forall k | k in ExpandedKeys(g, tenant, norms, c)
        ensures k in KeysOf(tenant, Expanded(builds, tenant, norms, c))
      {
        ExpandedIsSaid(g, builds, tenant, norms, c, k);
      }
    }
  }

  lemma ExpandedIsSaid(g: Graph, builds: Builds, tenant: string, norms: seq<string>, c: ChunkId, k: string)
    requires Agrees(g, builds) && IsTenant(tenant) && ChunkOf(g, tenant, c)
    requires k in ExpandedKeys(g, tenant, norms, c)
    ensures k in KeysOf(tenant, Expanded(builds, tenant, norms, c))
  {
    hide Agrees, Sayings, Key, Neighbours, NeighbourKeys;
    NeighboursCorrespond(g, builds, tenant, norms);
    var m := Mention(c, k);
    assert m in g.mentions;
    MentionsStayInTenant(g, builds, m);
    EntityIsItsKey(g, builds, k);
    var norm := g.entities[k].norm;
    var n :| n in Neighbours(builds, tenant, norms) && Key(tenant, n) == k;
    KeyIsInjective(tenant, n, tenant, norm);
    assert norm in Expanded(builds, tenant, norms, c);
  }

  // The two queries return, for exactly the chunks with evidence, the numbers
  // that make up their evidence.
  lemma QueriesCountEvidence(g: Graph, builds: Builds, tenant: string, norms: seq<string>, c: ChunkId)
    requires Agrees(g, builds) && IsTenant(tenant)
    ensures var d, e := DirectCounts(g, tenant, norms), ExpandedCounts(g, tenant, norms);
      && (c in d <==> Direct(builds, tenant, norms, c) != {})
      && (c in e <==> Expanded(builds, tenant, norms, c) != {})
      && (c in d ==> d[c] == |Direct(builds, tenant, norms, c)|)
      && (c in e ==> e[c] == |Expanded(builds, tenant, norms, c)|)
  {
    hide Agrees, Direct, Expanded, DirectKeys, ExpandedKeys;
    DirectCorresponds(g, builds, tenant, norms, c);
    ExpandedCorresponds(g, builds, tenant, norms, c);
    KeysAreAsMany(tenant, Direct(builds, tenant, norms, c));
    KeysAreAsMany(tenant, Expanded(builds, tenant, norms, c));
  }

  // ----- The number a rebuild reports -----

  ghost predicate DistinctChunks(chunks: seq<ChunkEntities>) {
    forall i, j | 0 <= i < j < |chunks| :: chunks[i].chunkId != chunks[j].chunkId
  }

  // One more row whose edge is not there yet.
  lemma NewEdge(init: seq<MentionRow>, last: MentionRow)
    requires forall i | 0 <= i < |init| :: Mention(init[i].chunkId, init[i].key) != Mention(last.chunkId, last.key)
    ensures |RowEdges(init + [last])| == |RowEdges(init)| + 1
  {
    var edge := Mention(last.chunkId, last.key);
    assert edge !in RowEdges(init);
    RowEdgesOfConcat(init, [last]);
    assert last in [last];
    assert RowEdges([last]) == {edge};
    hide RowEdges;
  }

  lemma {:induction false} RowEdgesCounted(rows: seq<MentionRow>)
    requires forall i, j | 0 <= i < j < |rows| ::
      Mention(rows[i].chunkId, rows[i].key) != Mention(rows[j].chunkId, rows[j].key)
    ensures |RowEdges(rows)| == |rows|
  {
    if rows == [] {
      assert RowEdges(rows) == {};
    } else {
      hide RowEdges;
      var init, last := rows[..|rows| - 1], rows[|rows| - 1];
      RowEdgesCounted(init);
      NewEdge(init, last);
      assert rows == init + [last];
    }
  }

  lemma DisjointEdges(first: seq<MentionRow>, rest: seq<MentionRow>, chunk: ChunkId)
    requires forall m | m in RowEdges(first) :: m.chunk == chunk
    requires forall m | m in RowEdges(rest) :: m.chunk != chunk
    ensures RowEdges(first) !! RowEdges(rest)
    ensures |RowEdges(first) + RowEdges(rest)| == |RowEdges(first)| + |RowEdges(rest)|
  {
    hide RowEdges;
  }

  // The rows of one chunk, in which each norm occurs once.
  lemma EdgesOfChunk(tenant: string, chunk: ChunkId, entities: seq<Entity>)
    requires IsTenant(tenant) && DistinctNorms(entities)
    ensures var rows := EntityRows(tenant, chunk, entities);
      |RowEdges(rows)| == |rows| && forall m | m in RowEdges(rows) :: m.chunk == chunk
  {
    hide Key, Normalize;
    var rows := EntityRows(tenant, chunk, entities);
    forall i, j | 0 <= i < j < |rows|
      ensures Mention(rows[i].chunkId, rows[i].key) != Mention(rows[j].chunkId, rows[j].key)
    {
      KeyIsInjective(tenant, rows[i].norm, tenant, rows[j].norm);
    }
    RowEdgesCounted(rows);
  }

  lemma EdgesOfOthers(tenant: string, chunks: seq<ChunkEntities>)
    requires DistinctChunks(chunks) && chunks != []
    ensures forall m | m in RowEdges(MentionRows(tenant, chunks[1..])) :: m.chunk != chunks[0].chunkId
  {
    hide Key, Normalize, MentionRows;
    var tail := chunks[1..];
    var rest := MentionRows(tenant, tail);
    KeyedRows(tenant, tail);
    forall m | m in RowEdges(rest) ensures m.chunk != chunks[0].chunkId {
      var r :| r in rest && m == Mention(r.chunkId, r.key);
      var c :| c in tail && c.chunkId == r.chunkId;
      var i :| 0 <= i < |tail| && tail[i] == c;
      assert chunks[i + 1] == c;
    }
  }

  lemma {:induction false} EdgesOfDistinct(tenant: string, chunks: seq<ChunkEntities>)
    requires IsTenant(tenant) && DistinctChunks(chunks)
    requires forall c | c in chunks :: DistinctNorms(c.entities)
    ensures |RowEdges(MentionRows(tenant, chunks))| == |MentionRows(tenant, chunks)|
  {
    if chunks == [] {
      assert RowEdges([]) == {};
    } else {
      hide Key, Normalize, RowEdges, EntityRows, DistinctNorms;
      var head, tail := chunks[0], chunks[1..];
      var first, rest := EntityRows(tenant, head.chunkId, head.entities), MentionRows(tenant, tail);
      assert MentionRows(tenant, chunks) == first + rest;
      hide MentionRows;
      EdgesOfDistinct(tenant, tail);
      assert head in chunks;
      EdgesOfChunk(tenant, head.chunkId, head.entities);
      EdgesOfOthers(tenant, chunks);
      RowEdgesOfConcat(first, rest);
      DisjointEdges(first, rest, head.chunkId);
    }
  }

  // The returned mention count is the number of distinct MENTIONS edges of the
  // document, because extraction deduplicates by the norm that makes the key.
  lemma MentionCountIsEdgeCount(tenant: string, found: seq<seq<Entity>>, ids: seq<ChunkId>)
    requires IsTenant(tenant) && |ids| == |found|
    requires forall i, j | 0 <= i < j < |ids| :: ids[i] != ids[j]
    ensures var chunks := seq(|ids|, i requires 0 <= i < |ids| => ChunkEntities(ids[i], i, Dedupe(found[i])));
      |RowEdges(MentionRows(tenant, chunks))| == |MentionRows(tenant, chunks)|
  {
    hide MentionRows, RowEdges, Dedupe;
    var chunks := seq(|ids|, i requires 0 <= i < |ids| => ChunkEntities(ids[i], i, Dedupe(found[i])));
    forall c | c in chunks ensures DistinctNorms(c.entities) {
      var i :| 0 <= i < |chunks| && chunks[i] == c;
      DedupeFacts(found[i]);
    }
    EdgesOfDistinct(tenant, chunks);
  }
}
