// The entity graph as a value (app/graph/service.py): its nodes and edges, the
// statements that write them, and what a graph has to do with the builds that
// made it. Class GraphStore in module GraphService runs the statements.

module EntityGraph {
  import opened Extraction

  // UUIDs in text form, as the graph stores them.
  type ChunkId = string
  type DocId = string

  // Display name and type of an entity are first-writer-wins and play no part in search.
  datatype EntityNode = EntityNode(tenant: string, norm: string)
  datatype ChunkNode = ChunkNode(tenant: string, doc: DocId, index: nat)
  datatype DocumentNode = DocumentNode(tenant: string, title: string, docType: string)

  datatype PartOf = PartOf(chunk: ChunkId, doc: DocId)
  datatype Mention = Mention(chunk: ChunkId, key: string)

  datatype Graph = Graph(
    documents: map<DocId, DocumentNode>,
    chunks: map<ChunkId, ChunkNode>,
    entities: map<string, EntityNode>,
    partOf: set<PartOf>,
    mentions: set<Mention>)

  const EMPTY_GRAPH := Graph(map[], map[], map[], {}, {})

  // What one build says about one chunk.
  datatype ChunkEntities = ChunkEntities(chunkId: ChunkId, chunkIndex: nat, entities: seq<Entity>)

  datatype ChunkRow = ChunkRow(chunkId: ChunkId, chunkIndex: nat)
  datatype MentionRow = MentionRow(chunkId: ChunkId, key: string, norm: string)

  // ----- Entity keys -----

  // Tenants are UUIDs in text form, so they hold no bar.
  predicate IsTenant(tenant: string) {
    '|' !in tenant
  }

  function Key(tenant: string, norm: string): string {
    tenant + ['|'] + norm
  }

  // The single-property key identifies tenant and norm.
  lemma {:induction false} KeyIsInjective(t1: string, n1: string, t2: string, n2: string)
    requires IsTenant(t1) && IsTenant(t2)
    ensures Key(t1, n1) == Key(t2, n2) <==> t1 == t2 && n1 == n2
  {
    var k1, k2 := Key(t1, n1), Key(t2, n2);
    if k1 == k2 {
      BarAt(t1, n1);
      BarAt(t2, n2);
      assert forall i | 0 <= i < |t1| :: t1[i] != '|';
      assert forall i | 0 <= i < |t2| :: t2[i] != '|';
      assert |t1| == |t2|;
      assert t1 == k1[..|t1|] == k2[..|t2|] == t2;
      assert n1 == k1[|t1| + 1..] == k2[|t2| + 1..] == n2;
    }
  }

  lemma BarAt(tenant: string, norm: string)
    ensures Key(tenant, norm)[|tenant|] == '|'
    ensures forall i | 0 <= i < |tenant| :: Key(tenant, norm)[i] == tenant[i]
  {
  }

  // ----- The statements of a rebuild -----

  // MATCH (c:Chunk {tenant_id, document_id}) DETACH DELETE c
  predicate Deleted(chunks: map<ChunkId, ChunkNode>, tenant: string, doc: DocId, c: ChunkId) {
    c in chunks && chunks[c].tenant == tenant && chunks[c].doc == doc
  }

  function DeleteChunks(g: Graph, tenant: string, doc: DocId): Graph {
    g.(chunks := (map c | c in g.chunks && !Deleted(g.chunks, tenant, doc, c) :: g.chunks[c]),
       partOf := (set p | p in g.partOf && !Deleted(g.chunks, tenant, doc, p.chunk)),
       mentions := (set m | m in g.mentions && !Deleted(g.chunks, tenant, doc, m.chunk)))
  }

  // MERGE (d:Document {document_id}) SET ...
  function MergeDocument(g: Graph, tenant: string, doc: DocId, title: string, docType: string): Graph {
    g.(documents := g.documents[doc := DocumentNode(tenant, title, docType)])
  }

  // MERGE (c:Chunk {chunk_id}) SET ... MERGE (c)-[:PART_OF]->(d)
  function MergeChunk(g: Graph, tenant: string, doc: DocId, row: ChunkRow): Graph {
    g.(chunks := g.chunks[row.chunkId := ChunkNode(tenant, doc, row.chunkIndex)],
       partOf := g.partOf + {PartOf(row.chunkId, doc)})
  }

  function MergeChunks(g: Graph, tenant: string, doc: DocId, rows: seq<ChunkRow>): Graph {
    if rows == [] then g
    else MergeChunk(MergeChunks(g, tenant, doc, rows[..|rows| - 1]), tenant, doc, rows[|rows| - 1])
  }

  // MATCH (c:Chunk {chunk_id}) MERGE (e:Entity {key}) ON CREATE SET ... MERGE (c)-[:MENTIONS]->(e)
  function MergeMention(g: Graph, tenant: string, row: MentionRow): Graph {
    if row.chunkId !in g.chunks then g
    else
      g.(entities := if row.key in g.entities then g.entities else g.entities[row.key := EntityNode(tenant, row.norm)],
         mentions := g.mentions + {Mention(row.chunkId, row.key)})
  }

  function MergeMentions(g: Graph, tenant: string, rows: seq<MentionRow>): Graph {
    if rows == [] then g
    else MergeMention(MergeMentions(g, tenant, rows[..|rows| - 1]), tenant, rows[|rows| - 1])
  }

  function ChunkRows(chunks: seq<ChunkEntities>): (rows: seq<ChunkRow>)
    ensures |rows| == |chunks|
    ensures forall i | 0 <= i < |chunks| :: rows[i] == ChunkRow(chunks[i].chunkId, chunks[i].chunkIndex)
  {
    seq(|chunks|, i requires 0 <= i < |chunks| => ChunkRow(chunks[i].chunkId, chunks[i].chunkIndex))
  }

  function EntityRows(tenant: string, chunkId: ChunkId, entities: seq<Entity>): (rows: seq<MentionRow>)
    ensures |rows| == |entities|
    ensures forall i | 0 <= i < |entities| ::
      rows[i] == MentionRow(chunkId, Key(tenant, Normalize(entities[i].name)), Normalize(entities[i].name))
  {
    seq(|entities|, i requires 0 <= i < |entities| =>
      MentionRow(chunkId, Key(tenant, Normalize(entities[i].name)), Normalize(entities[i].name)))
  }

  function MentionRows(tenant: string, chunks: seq<ChunkEntities>): seq<MentionRow> {
    if chunks == [] then []
    else EntityRows(tenant, chunks[0].chunkId, chunks[0].entities) + MentionRows(tenant, chunks[1..])
  }

  function Rebuilt(g: Graph, tenant: string, doc: DocId, title: string, docType: string, chunks: seq<ChunkEntities>)
    : Graph
  {
    MergeMentions(
      MergeChunks(
        MergeDocument(DeleteChunks(g, tenant, doc), tenant, doc, title, docType),
        tenant, doc, ChunkRows(chunks)),
      tenant, MentionRows(tenant, chunks))
  }

  // ----- The builds behind a graph -----

  datatype DocKey = DocKey(tenant: string, doc: DocId)

  // The last build of each document.
  type Builds = map<DocKey, seq<ChunkEntities>>

  datatype Owned = Owned(chunk: ChunkId, owner: DocKey)
  datatype Said = Said(tenant: string, chunk: ChunkId, norm: string)

  ghost function OwnedBy(key: DocKey, chunks: seq<ChunkEntities>): set<Owned> {
    set c | c in chunks :: Owned(c.chunkId, key)
  }

  ghost function Owners(builds: Builds): set<Owned> {
    set key, o | key in builds && o in OwnedBy(key, builds[key]) :: o
  }

  ghost function SaidBy(tenant: string, chunks: seq<ChunkEntities>): set<Said> {
    set c, e | c in chunks && e in c.entities :: Said(tenant, c.chunkId, Normalize(e.name))
  }

  // Which chunk of which tenant mentions which norm.
  ghost function Sayings(builds: Builds): set<Said> {
    set key, s | key in builds && s in SaidBy(key.tenant, builds[key]) :: s
  }

  ghost function EdgeOf(s: Said): Mention {
    Mention(s.chunk, Key(s.tenant, s.norm))
  }

  // Chunk nodes, PART_OF edges and MENTIONS edges are exactly what the last
  // builds say; entity nodes may be left over, but each is what its key says.
  ghost predicate ChunksAgree(g: Graph, owners: set<Owned>) {
    forall c, key :: Owned(c, key) in owners <==> c in g.chunks && DocKey(g.chunks[c].tenant, g.chunks[c].doc) == key
  }

  ghost predicate PartsAgree(g: Graph, owners: set<Owned>) {
    g.partOf == set o | o in owners :: PartOf(o.chunk, o.owner.doc)
  }

  ghost predicate MentionsAgree(g: Graph, sayings: set<Said>) {
    g.mentions == set s | s in sayings :: EdgeOf(s)
  }

  ghost predicate EntitiesAgree(g: Graph) {
    && (forall k | k in g.entities ::
          IsTenant(g.entities[k].tenant) && k == Key(g.entities[k].tenant, g.entities[k].norm))
    && (forall m | m in g.mentions :: m.key in g.entities)
  }

  ghost predicate Tenanted(builds: Builds) {
    forall key | key in builds :: IsTenant(key.tenant)
  }

  ghost predicate Agrees(g: Graph, builds: Builds) {
    && ChunksAgree(g, Owners(builds)) && PartsAgree(g, Owners(builds))
    && MentionsAgree(g, Sayings(builds)) && EntitiesAgree(g) && Tenanted(builds)
  }

  // Chunk ids are fresh UUIDs: no two documents share one.
  ghost predicate FreshFor(builds: Builds, key: DocKey, chunks: seq<ChunkEntities>) {
    forall other, c | other in builds && other != key && c in builds[other] ::
      forall d | d in chunks :: d.chunkId != c.chunkId
  }

  lemma EmptyAgrees()
    ensures Agrees(EMPTY_GRAPH, map[])
  {
  }

  // ----- Deleting a document's chunks -----

  lemma OwnersWithout(builds: Builds, key: DocKey)
    ensures Owners(builds - {key}) == set o | o in Owners(builds) && o.owner != key
  {
    forall o ensures o in Owners(builds - {key}) <==> o in Owners(builds) && o.owner != key {
      if o in Owners(builds - {key}) {
        var k :| k in builds - {key} && o in OwnedBy(k, (builds - {key})[k]);
        assert k in builds && o in OwnedBy(k, builds[k]);
      }
      if o in Owners(builds) && o.owner != key {
        var k :| k in builds && o in OwnedBy(k, builds[k]);
        assert k in builds - {key} && o in OwnedBy(k, (builds - {key})[k]);
      }
    }
  }

  // A saying belongs to the document that owns its chunk.
  ghost predicate SaidIn(builds: Builds, s: Said, key: DocKey) {
    key in builds && s in SaidBy(key.tenant, builds[key])
  }

  lemma SayingIsOwned(builds: Builds, s: Said, key: DocKey)
    requires SaidIn(builds, s, key)
    ensures s.tenant == key.tenant && Owned(s.chunk, key) in Owners(builds)
  {
    var c, e :| c in builds[key] && e in c.entities && s == Said(key.tenant, c.chunkId, Normalize(e.name));
    assert Owned(c.chunkId, key) in OwnedBy(key, builds[key]);
  }

  lemma DeleteAgrees(g: Graph, builds: Builds, key: DocKey)
    requires Agrees(g, builds)
    ensures Agrees(DeleteChunks(g, key.tenant, key.doc), builds - {key})
  {
    hide OwnedBy, SaidBy, Key;
    var h, rest := DeleteChunks(g, key.tenant, key.doc), builds - {key};
    OwnersWithout(builds, key);
    assert forall c :: Deleted(g.chunks, key.tenant, key.doc, c) <==> Owned(c, key) in Owners(builds);
    assert ChunksAgree(h, Owners(rest));
    forall p ensures p in h.partOf <==> exists o :: o in Owners(rest) && p == PartOf(o.chunk, o.owner.doc) {
      DeleteKeepsParts(g, builds, key, p);
    }
    assert PartsAgree(h, Owners(rest));
    forall m ensures m in h.mentions <==> exists s :: s in Sayings(rest) && m == EdgeOf(s) {
      DeleteKeepsMentions(g, builds, key, m);
    }
    assert MentionsAgree(h, Sayings(rest));
  }

  lemma DeleteKeepsParts(g: Graph, builds: Builds, key: DocKey, p: PartOf)
    requires Agrees(g, builds)
    ensures p in DeleteChunks(g, key.tenant, key.doc).partOf
       <==> exists o :: o in Owners(builds - {key}) && p == PartOf(o.chunk, o.owner.doc)
  {
    hide OwnedBy, Sayings, EntitiesAgree, Owners;
    OwnersWithout(builds, key);
    var h := DeleteChunks(g, key.tenant, key.doc);
    if p in h.partOf {
      var o :| o in Owners(builds) && p == PartOf(o.chunk, o.owner.doc);
      assert Owned(o.chunk, o.owner) in Owners(builds);
      assert o.owner != key;
      assert o in Owners(builds - {key});
    }
    if o :| o in Owners(builds - {key}) && p == PartOf(o.chunk, o.owner.doc) {
      assert Owned(o.chunk, o.owner) in Owners(builds);
    }
  }

  lemma DeleteKeepsMentions(g: Graph, builds: Builds, key: DocKey, m: Mention)
    requires Agrees(g, builds)
    ensures m in DeleteChunks(g, key.tenant, key.doc).mentions
       <==> exists s :: s in Sayings(builds - {key}) && m == EdgeOf(s)
  {
    hide OwnedBy, SaidBy, EntitiesAgree, PartsAgree, Owners;
    var h, rest := DeleteChunks(g, key.tenant, key.doc), builds - {key};
    if m in h.mentions {
      var s :| s in Sayings(builds) && m == EdgeOf(s);
      var owner :| owner in builds && s in SaidBy(owner.tenant, builds[owner]);
      assert SaidIn(builds, s, owner);
      SayingIsOwned(builds, s, owner);
      assert owner != key;
      assert owner in rest && s in SaidBy(owner.tenant, rest[owner]);
    }
    if s :| s in Sayings(rest) && m == EdgeOf(s) {
      var owner :| owner in rest && s in SaidBy(owner.tenant, rest[owner]);
      assert SaidIn(builds, s, owner);
      SayingIsOwned(builds, s, owner);
      assert s in Sayings(builds);
    }
  }

  // ----- Adding a build -----

  lemma OwnersWith(builds: Builds, key: DocKey, chunks: seq<ChunkEntities>)
    requires key !in builds
    ensures Owners(builds[key := chunks]) == Owners(builds) + OwnedBy(key, chunks)
  {
    hide OwnedBy;
    var all := builds[key := chunks];
    forall o ensures o in Owners(all) <==> o in Owners(builds) + OwnedBy(key, chunks) {
      if o in Owners(builds) {
        var k :| k in builds && o in OwnedBy(k, builds[k]);
        assert k in all && o in OwnedBy(k, all[k]);
      }
      if o in OwnedBy(key, chunks) {
        assert key in all && o in OwnedBy(key, all[key]);
      }
    }
  }

  lemma SayingsWith(builds: Builds, key: DocKey, chunks: seq<ChunkEntities>)
    requires key !in builds
    ensures Sayings(builds[key := chunks]) == Sayings(builds) + SaidBy(key.tenant, chunks)
  {
    hide SaidBy;
    var all := builds[key := chunks];
    forall s ensures s in Sayings(all) <==> s in Sayings(builds) + SaidBy(key.tenant, chunks) {
      if s in Sayings(builds) {
        var k :| k in builds && s in SaidBy(k.tenant, builds[k]);
        assert k in all && s in SaidBy(k.tenant, all[k]);
      }
      if s in SaidBy(key.tenant, chunks) {
        assert key in all && s in SaidBy(key.tenant, all[key]);
      }
    }
  }

  ghost function RowIds(rows: seq<ChunkRow>): set<ChunkId> {
    set r | r in rows :: r.chunkId
  }

  // What the chunk statement leaves in the graph.
  lemma {:induction false} MergeChunksEffect(g: Graph, tenant: string, doc: DocId, rows: seq<ChunkRow>)
    ensures var h := MergeChunks(g, tenant, doc, rows);
      && h.documents == g.documents && h.entities == g.entities && h.mentions == g.mentions
      && h.chunks.Keys == g.chunks.Keys + RowIds(rows)
      && (forall c | c in RowIds(rows) :: h.chunks[c].tenant == tenant && h.chunks[c].doc == doc)
      && (forall c | c in g.chunks && c !in RowIds(rows) :: h.chunks[c] == g.chunks[c])
      && h.partOf == g.partOf + set c | c in RowIds(rows) :: PartOf(c, doc)
  {
    if rows != [] {
      var init, last := rows[..|rows| - 1], rows[|rows| - 1];
      MergeChunksEffect(g, tenant, doc, init);
      assert RowIds(rows) == RowIds(init) + {last.chunkId} by {
        assert rows == init + [last];
        assert last in rows;
        forall r | r in init ensures r in rows {
        }
      }
    }
  }

  ghost predicate RowsKeyed(tenant: string, rows: seq<MentionRow>) {
    forall i | 0 <= i < |rows| :: rows[i].key == Key(tenant, rows[i].norm)
  }

  ghost function RowEdges(rows: seq<MentionRow>): set<Mention> {
    set r | r in rows :: Mention(r.chunkId, r.key)
  }

  // What the mention statement leaves in the graph.
  lemma {:induction false} MergeMentionsEffect(g: Graph, tenant: string, rows: seq<MentionRow>)
    requires forall r | r in rows :: r.chunkId in g.chunks
    ensures var h := MergeMentions(g, tenant, rows);
      && h.documents == g.documents && h.chunks == g.chunks && h.partOf == g.partOf
      && h.mentions == g.mentions + RowEdges(rows)
  {
    if rows != [] {
      var init, last := rows[..|rows| - 1], rows[|rows| - 1];
      assert rows == init + [last];
      MergeMentionsEffect(g, tenant, init);
      assert last in rows;
      assert RowEdges(rows) == RowEdges(init) + {Mention(last.chunkId, last.key)};
    }
  }

  // Entities are created under their key and never changed.
  lemma {:induction false} MergeMentionsKeepsEntities(g: Graph, tenant: string, rows: seq<MentionRow>)
    requires IsTenant(tenant) && EntitiesAgree(g) && RowsKeyed(tenant, rows)
    ensures EntitiesAgree(MergeMentions(g, tenant, rows))
  {
    hide Key;
    if rows != [] {
      MergeMentionsKeepsEntities(g, tenant, rows[..|rows| - 1]);
    }
  }

  lemma {:induction false} RowsOfBuild(tenant: string, chunks: seq<ChunkEntities>)
    ensures RowsKeyed(tenant, MentionRows(tenant, chunks))
    ensures RowEdges(MentionRows(tenant, chunks)) == set s | s in SaidBy(tenant, chunks) :: EdgeOf(s)
    ensures forall r | r in MentionRows(tenant, chunks) :: exists c :: c in chunks && c.chunkId == r.chunkId
  {
    hide Key, Normalize;
    forall m
      ensures m in RowEdges(MentionRows(tenant, chunks)) <==> exists s :: s in SaidBy(tenant, chunks) && m == EdgeOf(s)
    {
      EdgeOfBuild(tenant, chunks, m);
    }
    KeyedRows(tenant, chunks);
  }

  lemma {:induction false} KeyedRows(tenant: string, chunks: seq<ChunkEntities>)
    ensures RowsKeyed(tenant, MentionRows(tenant, chunks))
    ensures forall r | r in MentionRows(tenant, chunks) :: exists c :: c in chunks && c.chunkId == r.chunkId
  {
    hide Key, Normalize;
    if chunks != [] {
      KeyedRows(tenant, chunks[1..]);
      var first := EntityRows(tenant, chunks[0].chunkId, chunks[0].entities);
      forall r | r in MentionRows(tenant, chunks) ensures exists c :: c in chunks && c.chunkId == r.chunkId {
        if r in first {
          assert chunks[0] in chunks;
        } else {
          var c :| c in chunks[1..] && c.chunkId == r.chunkId;
          assert c in chunks;
        }
      }
    }
  }

  lemma RowEdgesOfConcat(a: seq<MentionRow>, b: seq<MentionRow>)
    ensures RowEdges(a + b) == RowEdges(a) + RowEdges(b)
  {
  }

  lemma EdgeOfChunk(tenant: string, c: ChunkEntities, m: Mention)
    ensures m in RowEdges(EntityRows(tenant, c.chunkId, c.entities))
       <==> exists s :: s in SaidBy(tenant, [c]) && m == EdgeOf(s)
  {
    hide Key, Normalize;
    var rows := EntityRows(tenant, c.chunkId, c.entities);
    if m in RowEdges(rows) {
      var r :| r in rows && m == Mention(r.chunkId, r.key);
      var i :| 0 <= i < |rows| && rows[i] == r;
      assert c in [c] && c.entities[i] in c.entities;
      var s := Said(tenant, c.chunkId, Normalize(c.entities[i].name));
      assert s in SaidBy(tenant, [c]) && m == EdgeOf(s);
    }
    if s :| s in SaidBy(tenant, [c]) && m == EdgeOf(s) {
      var e :| e in c.entities && s == Said(tenant, c.chunkId, Normalize(e.name));
      var i :| 0 <= i < |c.entities| && c.entities[i] == e;
      assert rows[i] in rows;
    }
  }

  lemma {:induction false} EdgeOfBuild(tenant: string, chunks: seq<ChunkEntities>, m: Mention)
    ensures m in RowEdges(MentionRows(tenant, chunks)) <==> exists s :: s in SaidBy(tenant, chunks) && m == EdgeOf(s)
  {
    hide Key, Normalize, RowEdges, EntityRows, SaidBy;
    if chunks == [] {
      NoEdges(tenant);
    } else {
      var head, tail := chunks[0], chunks[1..];
      EdgeOfBuild(tenant, tail, m);
      RowEdgesOfConcat(EntityRows(tenant, head.chunkId, head.entities), MentionRows(tenant, tail));
      SaidByHead(tenant, chunks);
      EdgeOfChunk(tenant, head, m);
    }
  }

  lemma NoEdges(tenant: string)
    ensures RowEdges(MentionRows(tenant, [])) == {} && SaidBy(tenant, []) == {}
  {
  }

  lemma SaidByHead(tenant: string, chunks: seq<ChunkEntities>)
    requires chunks != []
    ensures SaidBy(tenant, chunks) == SaidBy(tenant, [chunks[0]]) + SaidBy(tenant, chunks[1..])
  {
    hide Normalize;
    assert chunks == [chunks[0]] + chunks[1..];
  }

  lemma BuildRowIds(key: DocKey, chunks: seq<ChunkEntities>, c: ChunkId)
    ensures c in RowIds(ChunkRows(chunks)) <==> Owned(c, key) in OwnedBy(key, chunks)
  {
    if c in RowIds(ChunkRows(chunks)) {
      var r :| r in ChunkRows(chunks) && r.chunkId == c;
      var i :| 0 <= i < |chunks| && ChunkRows(chunks)[i] == r;
      assert chunks[i] in chunks;
    }
    if Owned(c, key) in OwnedBy(key, chunks) {
      var x :| x in chunks && x.chunkId == c;
      var i :| 0 <= i < |chunks| && chunks[i] == x;
      assert ChunkRows(chunks)[i] in ChunkRows(chunks);
    }
  }

  lemma AddChunksAgree(g: Graph, builds: Builds, key: DocKey, chunks: seq<ChunkEntities>)
    requires Agrees(g, builds) && key !in builds && FreshFor(builds, key, chunks)
    ensures var h, owners := MergeChunks(g, key.tenant, key.doc, ChunkRows(chunks)), Owners(builds[key := chunks]);
      ChunksAgree(h, owners) && PartsAgree(h, owners)
  {
    hide MergeChunks, Sayings;
    var rows := ChunkRows(chunks);
    var h, owners := MergeChunks(g, key.tenant, key.doc, rows), Owners(builds[key := chunks]);
    MergeChunksEffect(g, key.tenant, key.doc, rows);
    OwnersWith(builds, key, chunks);
    forall c ensures c in RowIds(rows) <==> Owned(c, key) in OwnedBy(key, chunks) {
      BuildRowIds(key, chunks, c);
    }
    forall c, k
      ensures Owned(c, k) in owners <==> c in h.chunks && DocKey(h.chunks[c].tenant, h.chunks[c].doc) == k
    {
      OwnerIsFresh(builds, key, chunks, c, k);
    }
    forall p ensures p in h.partOf <==> exists o :: o in owners && p == PartOf(o.chunk, o.owner.doc) {
      if p in h.partOf && p !in g.partOf {
        assert Owned(p.chunk, key) in owners;
      }
    }
  }

  lemma OwnerIsFresh(builds: Builds, key: DocKey, chunks: seq<ChunkEntities>, c: ChunkId, k: DocKey)
    requires key !in builds && FreshFor(builds, key, chunks)
    ensures Owned(c, k) in Owners(builds) ==> k != key && c !in RowIds(ChunkRows(chunks))
    ensures Owned(c, k) in OwnedBy(key, chunks) ==> k == key
  {
    if Owned(c, k) in Owners(builds) {
      var x :| x in builds[k] && x.chunkId == c;
      BuildRowIds(key, chunks, c);
    }
  }

  // The statements of one rebuild turn a graph of the builds into a graph of
  // the builds with that document replaced.
  lemma RebuiltAgrees(g: Graph, builds: Builds, key: DocKey, title: string, docType: string, chunks: seq<ChunkEntities>)
    requires Agrees(g, builds) && IsTenant(key.tenant) && FreshFor(builds, key, chunks)
    ensures Agrees(Rebuilt(g, key.tenant, key.doc, title, docType, chunks), builds[key := chunks])
  {
    hide DeleteChunks, MergeChunks, MergeMentions, Owners, Sayings, SaidBy, OwnedBy, MentionRows, EntitiesAgree;
    var rest := builds - {key};
    var cleared := MergeDocument(DeleteChunks(g, key.tenant, key.doc), key.tenant, key.doc, title, docType);
    DeleteAgrees(g, builds, key);
    DocumentsDoNotMatter(DeleteChunks(g, key.tenant, key.doc), cleared, rest);
    assert rest[key := chunks] == builds[key := chunks];
    var rows := ChunkRows(chunks);
    var filled := MergeChunks(cleared, key.tenant, key.doc, rows);
    AddChunksAgree(cleared, rest, key, chunks);
    MergeChunksEffect(cleared, key.tenant, key.doc, rows);
    EntitiesOnly(cleared, filled);
    var mentions := MentionRows(key.tenant, chunks);
    RowsOfBuild(key.tenant, chunks);
    forall r | r in mentions ensures r.chunkId in filled.chunks {
      var c :| c in chunks && c.chunkId == r.chunkId;
      ChunkIsRow(chunks, c);
    }
    MergeMentionsEffect(filled, key.tenant, mentions);
    MergeMentionsKeepsEntities(filled, key.tenant, mentions);
    SayingsWith(rest, key, chunks);
    var final := MergeMentions(filled, key.tenant, mentions);
    assert final.mentions
        == (set s | s in Sayings(rest) :: EdgeOf(s)) + (set s | s in SaidBy(key.tenant, chunks) :: EdgeOf(s));
    EdgesOfUnion(Sayings(rest), SaidBy(key.tenant, chunks));
  }

  lemma DocumentsDoNotMatter(g: Graph, h: Graph, builds: Builds)
    requires Agrees(g, builds) && h == g.(documents := h.documents)
    ensures Agrees(h, builds)
  {
  }

  lemma EntitiesOnly(g: Graph, h: Graph)
    requires EntitiesAgree(g) && h.entities == g.entities && h.mentions == g.mentions
    ensures EntitiesAgree(h)
  {
  }

  lemma ChunkIsRow(chunks: seq<ChunkEntities>, c: ChunkEntities)
    requires c in chunks
    ensures c.chunkId in RowIds(ChunkRows(chunks))
  {
    var i :| 0 <= i < |chunks| && chunks[i] == c;
    assert ChunkRows(chunks)[i] in ChunkRows(chunks);
  }

  lemma EdgesOfUnion(a: set<Said>, b: set<Said>)
    ensures (set s | s in a + b :: EdgeOf(s)) == (set s | s in a :: EdgeOf(s)) + (set s | s in b :: EdgeOf(s))
  {
  }
}
