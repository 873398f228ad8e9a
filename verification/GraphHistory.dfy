// The graph after any history of document rebuilds (app/graph/service.py:50-156):
// it agrees with the last build of each document, and search answers from
// these alone, whatever was built before and in whatever order.

module GraphHistory {
  import opened EntityGraph
  import opened GraphSearch

  datatype Rebuild = Rebuild(key: DocKey, title: string, docType: string, chunks: seq<ChunkEntities>)

  function GraphAfter(history: seq<Rebuild>): Graph {
    if history == [] then EMPTY_GRAPH
    else
      var r := history[|history| - 1];
      Rebuilt(GraphAfter(history[..|history| - 1]), r.key.tenant, r.key.doc, r.title, r.docType, r.chunks)
  }

  function LastBuilds(history: seq<Rebuild>): Builds {
    if history == [] then map[]
    else
      var r := history[|history| - 1];
      LastBuilds(history[..|history| - 1])[r.key := r.chunks]
  }

  // Tenants are UUIDs, and no build uses a chunk id of another document's last build.
  ghost predicate Possible(history: seq<Rebuild>) {
    history != [] ==>
      var init, r := history[..|history| - 1], history[|history| - 1];
      Possible(init) && IsTenant(r.key.tenant) && FreshFor(LastBuilds(init), r.key, r.chunks)
  }

  lemma {:induction false} LastBuildWins(history: seq<Rebuild>, key: DocKey)
    ensures key in LastBuilds(history) <==> exists i :: 0 <= i < |history| && history[i].key == key
    ensures forall i | 0 <= i < |history| && history[i].key == key ::
      (forall j | i < j < |history| :: history[j].key != key) ==> LastBuilds(history)[key] == history[i].chunks
  {
    if history != [] {
      var n := |history| - 1;
      LastBuildWins(history[..n], key);
      if i :| 0 <= i < |history| && history[i].key == key {
        assert i < n ==> history[..n][i].key == key;
      }
      forall i | 0 <= i < |history| && history[i].key == key && forall j | i < j < |history| :: history[j].key != key
        ensures LastBuilds(history)[key] == history[i].chunks
      {
        if i < n {
          assert history[..n][i] == history[i] && history[n].key != key;
        }
      }
    }
  }

  // The graph agrees with the last builds.
  lemma {:induction false} HistoryAgrees(history: seq<Rebuild>)
    requires Possible(history)
    ensures Agrees(GraphAfter(history), LastBuilds(history))
  {
    hide Agrees, FreshFor, Rebuilt;
    if history == [] {
      EmptyAgrees();
    } else {
      var init, r := history[..|history| - 1], history[|history| - 1];
      HistoryAgrees(init);
      RebuiltAgrees(GraphAfter(init), LastBuilds(init), r.key, r.title, r.docType, r.chunks);
    }
  }

  ghost predicate SameAt(a: map<ChunkId, nat>, b: map<ChunkId, nat>, c: ChunkId) {
    (c in a <==> c in b) && (c in a && c in b ==> a[c] == b[c])
  }

  lemma SameMaps(a: map<ChunkId, nat>, b: map<ChunkId, nat>)
    requires forall c :: SameAt(a, b, c)
    ensures a == b
  {
    assert forall c :: SameAt(a, b, c) ==> (c in a <==> c in b);
  }

  lemma SameAnswerAt(g: Graph, h: Graph, builds: Builds, tenant: string, norms: seq<string>, c: ChunkId)
    requires Agrees(g, builds) && Agrees(h, builds) && IsTenant(tenant)
    ensures SameAt(DirectCounts(g, tenant, norms), DirectCounts(h, tenant, norms), c)
    ensures SameAt(ExpandedCounts(g, tenant, norms), ExpandedCounts(h, tenant, norms), c)
  {
    QueriesCountEvidence(g, builds, tenant, norms, c);
    QueriesCountEvidence(h, builds, tenant, norms, c);
    hide Agrees, DirectCounts, ExpandedCounts, Direct, Expanded;
  }

  // Histories with the same last builds answer every query alike: entity nodes
  // left over from earlier builds never count.
  lemma {:induction false} OnlyLastBuildsCount(
      history: seq<Rebuild>, other: seq<Rebuild>, tenant: string, norms: seq<string>)
    requires Possible(history) && Possible(other) && IsTenant(tenant)
    requires LastBuilds(history) == LastBuilds(other)
    ensures DirectCounts(GraphAfter(history), tenant, norms) == DirectCounts(GraphAfter(other), tenant, norms)
    ensures ExpandedCounts(GraphAfter(history), tenant, norms) == ExpandedCounts(GraphAfter(other), tenant, norms)
  {
    hide *;
    var g, h := GraphAfter(history), GraphAfter(other);
    HistoryAgrees(history);
    HistoryAgrees(other);
    forall c
      ensures SameAt(DirectCounts(g, tenant, norms), DirectCounts(h, tenant, norms), c)
      ensures SameAt(ExpandedCounts(g, tenant, norms), ExpandedCounts(h, tenant, norms), c)
    {
      SameAnswerAt(g, h, LastBuilds(history), tenant, norms, c);
    }
    SameMaps(DirectCounts(g, tenant, norms), DirectCounts(h, tenant, norms));
    SameMaps(ExpandedCounts(g, tenant, norms), ExpandedCounts(h, tenant, norms));
  }
}
