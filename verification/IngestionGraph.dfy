// The knowledge graph in all runs of the ingestion protocol: what it holds of
// a document is always the whole document, but not always its current rows.

module IngestionGraph {
  import opened Documents
  import opened Options
  import opened IngestionProtocol
  import opened IngestionRuns
  import opened IngestionRepeats

  // The chunks of the document have been committed.
  ghost predicate Done(parse: Data -> Parsed, s: State, d: DocId) {
    && Known(s, d) && parse(s.uploaded[d]).Chunks?
    && (d in s.docs ==> AllChunks(parse, RowsOf(s.rows, d), d, s.uploaded[d]))
  }

  // A graph task, and the end of a successful ingestion, come after that.
  ghost predicate MessageOk(parse: Data -> Parsed, s: State, m: Message) {
    m.Build? ==> Done(parse, s, m.doc)
  }

  ghost predicate ExecutionOk(parse: Data -> Parsed, s: State, x: Execution) {
    && (x.message.Build? || x.at == Committed || x.at == Published ==> Done(parse, s, x.message.doc))
    && (x.at.Snapshot? ==>
          x.message.Build? && Known(s, x.message.doc)
          && AllChunks(parse, x.at.rows, x.message.doc, s.uploaded[x.message.doc]))
  }

  ghost predicate QueueOk(parse: Data -> Parsed, s: State, queue: multiset<Message>) {
    forall m | m in queue :: MessageOk(parse, s, m)
  }

  ghost predicate WorkersOk(parse: Data -> Parsed, s: State, running: map<WorkerId, Execution>) {
    forall w | w in running :: ExecutionOk(parse, s, running[w])
  }

  ghost predicate WholeGraph(parse: Data -> Parsed, s: State, graph: map<DocId, map<RowId, Row>>) {
    forall d | d in graph :: Known(s, d) && AllChunks(parse, graph[d], d, s.uploaded[d])
  }

  // Queue, workers and graph of u, judged by the documents of s.
  ghost predicate Enriched(parse: Data -> Parsed, s: State, u: State) {
    QueueOk(parse, s, u.queue) && WorkersOk(parse, s, u.running) && WholeGraph(parse, s, u.graph)
  }

  // ----- The documents change -----

  lemma DoneStays(parse: Data -> Parsed, s: State, e: Event, d: DocId)
    requires Invariant(parse, s) && Known(s, d)
    ensures Known(Apply(parse, s, e), d) && Apply(parse, s, e).uploaded[d] == s.uploaded[d]
    ensures Done(parse, s, d) ==> Done(parse, Apply(parse, s, e), d)
  {
    hide Invariant, Apply, RowsOf, AllChunks, Quiet;
    StepAfter(parse, s, e, d);
  }

  // What was known and done of a document still is.
  ghost predicate Kept(parse: Data -> Parsed, s: State, t: State) {
    forall d | Known(s, d) ::
      Known(t, d) && t.uploaded[d] == s.uploaded[d] && (Done(parse, s, d) ==> Done(parse, t, d))
  }

  lemma MessageKept(parse: Data -> Parsed, s: State, t: State, m: Message)
    requires Kept(parse, s, t) && MessageOk(parse, s, m)
    ensures MessageOk(parse, t, m)
  {
    assert Done(parse, s, m.doc) ==> Known(s, m.doc);
    hide Done, Known;
  }

  lemma ExecutionKept(parse: Data -> Parsed, s: State, t: State, x: Execution)
    requires Kept(parse, s, t) && ExecutionOk(parse, s, x)
    ensures ExecutionOk(parse, t, x)
  {
    assert Done(parse, s, x.message.doc) ==> Known(s, x.message.doc);
    hide Done, AllChunks;
  }

  lemma EnrichedKept(parse: Data -> Parsed, s: State, t: State, u: State)
    requires Kept(parse, s, t) && Enriched(parse, s, u)
    ensures Enriched(parse, t, u)
  {
    forall m | m in u.queue ensures MessageOk(parse, t, m) {
      MessageKept(parse, s, t, m);
    }
    hide MessageOk;
    forall w | w in u.running ensures ExecutionOk(parse, t, u.running[w]) {
      ExecutionKept(parse, s, t, u.running[w]);
    }
    hide ExecutionOk, Done, AllChunks;
    assert WholeGraph(parse, t, u.graph);
  }

  lemma EnrichedStays(parse: Data -> Parsed, s: State, e: Event, u: State)
    requires Invariant(parse, s) && Enriched(parse, s, u)
    ensures Enriched(parse, Apply(parse, s, e), u)
  {
    hide Invariant, Apply, Done, Enriched;
    forall d | Known(s, d)
      ensures Known(Apply(parse, s, e), d) && Apply(parse, s, e).uploaded[d] == s.uploaded[d]
      ensures Done(parse, s, d) ==> Done(parse, Apply(parse, s, e), d)
    {
      DoneStays(parse, s, e, d);
    }
    EnrichedKept(parse, s, Apply(parse, s, e), u);
  }

  // ----- Queue, workers and graph change -----

  lemma QueueMore(parse: Data -> Parsed, s: State, queue: multiset<Message>, m: Message)
    requires QueueOk(parse, s, queue) && MessageOk(parse, s, m)
    ensures QueueOk(parse, s, queue + multiset{m})
  {
    hide MessageOk;
  }

  lemma WorkerSet(parse: Data -> Parsed, s: State, running: map<WorkerId, Execution>, w: WorkerId, x: Execution)
    requires WorkersOk(parse, s, running) && ExecutionOk(parse, s, x)
    ensures WorkersOk(parse, s, running[w := x])
  {
    hide ExecutionOk;
  }

  lemma WorkerLess(parse: Data -> Parsed, s: State, running: map<WorkerId, Execution>, w: WorkerId)
    requires WorkersOk(parse, s, running)
    ensures WorkersOk(parse, s, running - {w})
  {
    hide ExecutionOk;
  }

  lemma MessageOfWorker(parse: Data -> Parsed, s: State, running: map<WorkerId, Execution>, w: WorkerId, retries: nat)
    requires WorkersOk(parse, s, running) && w in running
    ensures MessageOk(parse, s, running[w].message) && MessageOk(parse, s, running[w].message.(retries := retries))
    ensures ExecutionOk(parse, s, running[w])
  {
    hide Done;
    assert ExecutionOk(parse, s, running[w]);
  }

  lemma EndEnriched(parse: Data -> Parsed, s: State, u: State, w: WorkerId)
    requires Enriched(parse, s, u)
    ensures Enriched(parse, s, Finish(u, w)) && Enriched(parse, s, OnCrash(u, w))
    ensures Enriched(parse, s, OnRedeliver(u, w))
    ensures w in u.running ==> Enriched(parse, s, Retry(u, w))
  {
    WorkerLess(parse, s, u.running, w);
    if w in u.running {
      var m := u.running[w].message;
      MessageOfWorker(parse, s, u.running, w, m.retries + 1);
      hide QueueOk, WorkersOk, WholeGraph, MessageOk;
      QueueMore(parse, s, u.queue, m);
      QueueMore(parse, s, u.queue, m.(retries := m.retries + 1));
    }
  }

  lemma GotoEnriched(parse: Data -> Parsed, s: State, u: State, w: WorkerId, p: Point)
    requires Enriched(parse, s, u) && w in u.running
    requires !p.Snapshot? && ((p == Committed || p == Published) ==> Done(parse, s, u.running[w].message.doc))
    ensures Enriched(parse, s, Goto(u, w, p))
  {
    MessageOfWorker(parse, s, u.running, w, 0);
    hide QueueOk, WorkersOk, WholeGraph, Done;
    assert ExecutionOk(parse, s, u.running[w].(at := p));
    hide ExecutionOk;
    WorkerSet(parse, s, u.running, w, u.running[w].(at := p));
  }

  lemma StoredIsDone(parse: Data -> Parsed, s: State, d: DocId, ids: seq<RowId>)
    requires Known(s, d) && parse(s.uploaded[d]).Chunks?
    requires |ids| == |parse(s.uploaded[d]).contents| && FreshIds(s, ids)
    ensures Done(parse, Stored(s, d, parse(s.uploaded[d]).contents, ids), d)
  {
    var contents := parse(s.uploaded[d]).contents;
    NewRowsComplete(d, contents, ids);
    StoredRows(s.rows, d, contents, ids, d);
    hide Complete, FreshIds, NewRows, WithoutRows, RowsOf;
  }

  lemma StoredEnriched(parse: Data -> Parsed, s: State, c: State, w: WorkerId, d: DocId, ids: seq<RowId>)
    requires w in s.running && s.running[w].message.doc == d && Enriched(parse, c, s)
    requires Known(s, d) && parse(s.uploaded[d]).Chunks?
    requires |ids| == |parse(s.uploaded[d]).contents| && FreshIds(s, ids)
    requires c == Goto(Stored(s, d, parse(s.uploaded[d]).contents, ids), w, Committed)
    ensures Enriched(parse, c, c)
  {
    var t := Stored(s, d, parse(s.uploaded[d]).contents, ids);
    StoredIsDone(parse, s, d, ids);
    GotoKeepsTables(t, w, Committed);
    hide Enriched, NewRows, WithoutRows, FreshIds, Done, SameTables;
    SameDone(parse, t, c, d);
    SameEnriched(parse, c, s, t);
    GotoEnriched(parse, c, t, w, Committed);
  }

  // c is the state after the step.
  lemma StoreEnriched(parse: Data -> Parsed, s: State, c: State, w: WorkerId, ids: seq<RowId>)
    requires Invariant(parse, s) && c == OnStore(parse, s, w, ids) && Enriched(parse, c, s)
    ensures Enriched(parse, c, c)
  {
    hide Invariant, Enriched, FreshIds, Stored;
    if HasData(s, w) {
      var d := s.running[w].message.doc;
      KnownExecution(parse, s, w);
      var parsed := parse(s.uploaded[d]);
      if d in s.docs && parsed.Chunks? {
        if |ids| == |parsed.contents| && FreshIds(s, ids) {
          DocumentIsKnown(parse, s, d);
          hide OnStore;
          StoreStep(parse, s, w, ids);
          StoredEnriched(parse, s, c, w, d, ids);
        }
      } else {
        GotoEnriched(parse, c, s, w, c.running[w].at);
      }
    }
  }

  lemma GotoKeepsTables(s: State, w: WorkerId, p: Point)
    requires w in s.running
    ensures SameTables(s, Goto(s, w, p))
  {
  }

  lemma SameDone(parse: Data -> Parsed, s: State, t: State, d: DocId)
    requires SameTables(s, t) && Done(parse, s, d)
    ensures Done(parse, t, d)
  {
    hide RowsOf, AllChunks;
  }

  lemma SameEnriched(parse: Data -> Parsed, c: State, s: State, t: State)
    requires Enriched(parse, c, s) && s.queue == t.queue && s.running == t.running && s.graph == t.graph
    ensures Enriched(parse, c, t)
  {
    hide QueueOk, WorkersOk, WholeGraph;
  }

  lemma DeliverEnriched(parse: Data -> Parsed, c: State, s: State, w: WorkerId, m: Message)
    requires Enriched(parse, c, s)
    ensures Enriched(parse, c, OnDeliver(s, w, m))
  {
    if m in s.queue {
      hide WholeGraph, Done;
      assert MessageOk(parse, c, m);
      assert QueueOk(parse, c, s.queue - multiset{m});
      assert ExecutionOk(parse, c, Execution(m, Started));
      hide QueueOk, ExecutionOk;
      WorkerSet(parse, c, s.running, w, Execution(m, Started));
    }
  }

  lemma PublishEnriched(parse: Data -> Parsed, c: State, s: State, w: WorkerId)
    requires Enriched(parse, c, s)
    ensures Enriched(parse, c, OnPublishBuild(s, w))
  {
    if At(s, w, Committed) {
      var d := s.running[w].message.doc;
      assert Done(parse, c, d) by { MessageOfWorker(parse, c, s.running, w, 0); }
      hide Done, WorkersOk, WholeGraph;
      assert MessageOk(parse, c, Build(d, 0));
      hide MessageOk, QueueOk;
      var t := s.(queue := s.queue + multiset{Build(d, 0)});
      QueueMore(parse, c, s.queue, Build(d, 0));
      assert Enriched(parse, c, t);
      hide Enriched;
      GotoEnriched(parse, c, t, w, Published);
    }
  }

  lemma PublishIngestEnriched(parse: Data -> Parsed, c: State, s: State, d: DocId)
    requires Enriched(parse, c, s)
    ensures Enriched(parse, c, OnPublishIngest(s, d))
  {
    hide QueueOk, WorkersOk, WholeGraph;
    QueueMore(parse, c, s.queue, Ingest(d, 0));
  }

  lemma ReadEnriched(parse: Data -> Parsed, c: State, s: State, w: WorkerId)
    requires Enriched(parse, c, s) && SameTables(c, s)
    ensures Enriched(parse, c, OnReadRows(s, w))
  {
    EndEnriched(parse, c, s, w);
    if w in s.running && s.running[w].message.Build? && s.running[w].message.doc in s.docs {
      var d := s.running[w].message.doc;
      MessageOfWorker(parse, c, s.running, w, 0);
      var x := s.running[w].(at := Snapshot(RowsOf(s.rows, d)));
      hide RowsOf, AllChunks, QueueOk, WorkersOk, WholeGraph;
      assert ExecutionOk(parse, c, x);
      hide ExecutionOk;
      WorkerSet(parse, c, s.running, w, x);
    }
  }

  lemma WriteEnriched(parse: Data -> Parsed, c: State, s: State, w: WorkerId)
    requires Enriched(parse, c, s)
    ensures Enriched(parse, c, OnWriteGraph(s, w)) && Enriched(parse, c, OnWriteGraphFails(s, w))
  {
    EndEnriched(parse, c, s, w);
    if HasSnapshot(s, w) {
      MessageOfWorker(parse, c, s.running, w, 0);
      hide AllChunks, QueueOk, WorkersOk, Retry;
    }
  }

  lemma MarkProcessingEnriched(parse: Data -> Parsed, c: State, s: State, w: WorkerId)
    requires Enriched(parse, c, s)
    ensures Enriched(parse, c, OnMarkProcessing(s, w))
  {
    hide Enriched, Retry;
    EndEnriched(parse, c, s, w);
    if w in s.running && s.running[w].message.doc in s.docs {
      var d := s.running[w].message.doc;
      var t := SetDocument(s, d, s.docs[d].(status := Processing));
      SameEnriched(parse, c, s, t);
      GotoEnriched(parse, c, t, w, Loaded);
    }
  }

  lemma MarkFailedEnriched(parse: Data -> Parsed, c: State, s: State, w: WorkerId, error: string, retried: bool)
    requires Enriched(parse, c, s)
    ensures Enriched(parse, c, OnMarkFailed(s, w, error, retried))
  {
    hide Enriched, Retry, Finish;
    EndEnriched(parse, c, s, w);
    if w in s.running && s.running[w].message.doc in s.docs {
      var d := s.running[w].message.doc;
      var t := SetDocument(s, d, s.docs[d].(status := Failed, error := Some(Truncated(error))));
      SameEnriched(parse, c, s, t);
      EndEnriched(parse, c, t, w);
    }
  }

  lemma LeaveEnriched(parse: Data -> Parsed, c: State, s: State, w: WorkerId, p: Point)
    requires Enriched(parse, c, s)
    ensures Enriched(parse, c, OnEndAt(s, w, p)) && Enriched(parse, c, OnFailAt(s, w, p))
    ensures Enriched(parse, c, OnStoreAborts(s, w)) && Enriched(parse, c, OnMarkFailedAborts(s, w))
    ensures Enriched(parse, c, OnDownload(s, w)) && Enriched(parse, c, OnBuildFails(s, w))
  {
    hide Enriched, Finish, Goto;
    EndEnriched(parse, c, s, w);
    if w in s.running {
      GotoEnriched(parse, c, s, w, Failing(false));
      var x := s.running[w].message.doc;
      if x in s.files {
        GotoEnriched(parse, c, s, w, Downloaded(s.files[x]));
      }
    }
  }

  lemma ApiEnriched(parse: Data -> Parsed, c: State, s: State, e: Event)
    requires Enriched(parse, c, s)
    requires OfApi(e)
    ensures Enriched(parse, c, Apply(parse, s, e))
  {
    hide Enriched, WithoutRows;
    match e
    case PublishIngest(x) => PublishIngestEnriched(parse, c, s, x);
    case Upload(x, data) => SameEnriched(parse, c, s, Apply(parse, s, e));
    case CommitCreate(x) => SameEnriched(parse, c, s, Apply(parse, s, e));
    case AbortCreate(x) => SameEnriched(parse, c, s, Apply(parse, s, e));
    case DeleteObject(x) => SameEnriched(parse, c, s, Apply(parse, s, e));
    case DeleteDocument(x) => SameEnriched(parse, c, s, Apply(parse, s, e));
  }

  lemma ReadKeepsTables(s: State, w: WorkerId)
    ensures SameTables(OnReadRows(s, w), s)
  {
    hide RowsOf;
  }

  lemma BrokerAndGraphEnriched(parse: Data -> Parsed, c: State, s: State, e: Event)
    requires Enriched(parse, c, s) && OfBrokerOrGraph(e) && (e.ReadRows? ==> SameTables(c, s))
    ensures Enriched(parse, c, Apply(parse, s, e))
  {
    hide Enriched, SameTables, OnDeliver, OnRedeliver, OnCrash, OnReadRows, OnWriteGraph,
      OnWriteGraphFails, OnBuildFails;
    match e
    case Deliver(w, m) => DeliverEnriched(parse, c, s, w, m);
    case Redeliver(w) => EndEnriched(parse, c, s, w);
    case Crash(w) => EndEnriched(parse, c, s, w);
    case ReadRows(w) => ReadEnriched(parse, c, s, w);
    case WriteGraph(w) => WriteEnriched(parse, c, s, w);
    case WriteGraphFails(w) => WriteEnriched(parse, c, s, w);
    case BuildFails(w) => LeaveEnriched(parse, c, s, w, Started);
  }

  lemma IngestionEnriched(parse: Data -> Parsed, c: State, s: State, e: Event)
    requires Enriched(parse, c, s) && !OfApi(e) && !OfBrokerOrGraph(e) && !e.Store?
    ensures Enriched(parse, c, Apply(parse, s, e))
  {
    hide Enriched, OnMarkProcessing, OnDownload, OnStoreAborts, OnPublishBuild, OnFailAt, OnEndAt, OnMarkFailed,
      OnMarkFailedAborts;
    match e
    case MarkProcessing(w) => MarkProcessingEnriched(parse, c, s, w);
    case MarkProcessingAborts(w) => LeaveEnriched(parse, c, s, w, Started);
    case Download(w) => LeaveEnriched(parse, c, s, w, Loaded);
    case DownloadFails(w) => LeaveEnriched(parse, c, s, w, Loaded);
    case StoreAborts(w) => LeaveEnriched(parse, c, s, w, Started);
    case PublishBuild(w) => PublishEnriched(parse, c, s, w);
    case PublishBuildFails(w) => LeaveEnriched(parse, c, s, w, Committed);
    case Notify(w) => LeaveEnriched(parse, c, s, w, Published);
    case NotifyFails(w) => LeaveEnriched(parse, c, s, w, Published);
    case MarkFailed(w, error, retried) => MarkFailedEnriched(parse, c, s, w, error, retried);
    case MarkFailedAborts(w) => LeaveEnriched(parse, c, s, w, Started);
  }

  lemma StepEnriched(parse: Data -> Parsed, s: State, e: Event)
    requires Invariant(parse, s) && Enriched(parse, s, s)
    ensures Enriched(parse, Apply(parse, s, e), Apply(parse, s, e))
  {
    var c := Apply(parse, s, e);
    EnrichedStays(parse, s, e, s);
    hide Invariant, Enriched, SameTables, OnStore, OnReadRows;
    if e.Store? {
      StoreEnriched(parse, s, c, e.w, e.ids);
    } else if OfApi(e) {
      hide Apply;
      ApiEnriched(parse, c, s, e);
    } else if OfBrokerOrGraph(e) {
      if e.ReadRows? {
        ReadKeepsTables(s, e.w);
      }
      BrokerAndGraphEnriched(parse, c, s, e);
    } else {
      hide Apply;
      IngestionEnriched(parse, c, s, e);
    }
  }

  lemma {:induction false} RunEnriched(parse: Data -> Parsed, s: State, events: seq<Event>)
    requires Invariant(parse, s) && Enriched(parse, s, s)
    ensures Enriched(parse, Run(parse, s, events), Run(parse, s, events))
    decreases |events|
  {
    hide Invariant, Apply, Enriched;
    if events != [] {
      StepKeepsInvariant(parse, s, events[0]);
      StepEnriched(parse, s, events[0]);
      RunEnriched(parse, Apply(parse, s, events[0]), events[1..]);
    }
  }

  // Whatever the graph holds of a document is all chunks of its file, although
  // a graph task reads the chunk rows without any check of the status.
  lemma GraphHoldsWholeDocuments(parse: Data -> Parsed, events: seq<Event>, d: DocId)
    ensures var s := Run(parse, INITIAL, events);
      d in s.graph ==> d in s.uploaded && AllChunks(parse, s.graph[d], d, s.uploaded[d])
  {
    assert Enriched(parse, INITIAL, INITIAL);
    assert Invariant(parse, INITIAL);
    hide Run, AllChunks, Invariant;
    RunEnriched(parse, INITIAL, events);
  }

  // A failure to publish the graph task, after the chunks are committed, leaves
  // a document FAILED that has all its chunks.
  lemma {:induction false} PublishFailureUndoesReady(
      parse: Data -> Parsed, events: seq<Event>, w: WorkerId, error: string, retried: bool)
    ensures
      var s := Run(parse, INITIAL, events);
      At(s, w, Committed) && s.running[w].message.doc in s.docs ==>
        var d, t := s.running[w].message.doc, Run(parse, s, [PublishBuildFails(w), MarkFailed(w, error, retried)]);
        && d in t.docs && t.docs[d].status == Failed
        && d in s.uploaded && AllChunks(parse, RowsOf(t.rows, d), d, s.uploaded[d])
  {
    var s := Run(parse, INITIAL, events);
    assert Enriched(parse, INITIAL, INITIAL) && Invariant(parse, INITIAL);
    hide Run, Invariant, RowsOf, AllChunks, OnFailAt, OnMarkFailed;
    RunEnriched(parse, INITIAL, events);
    if At(s, w, Committed) && s.running[w].message.doc in s.docs {
      FailedRun(parse, s, w, error, retried);
      FailedAt(s, w, Committed, error, retried);
      CommittedIsDone(parse, s, w);
    }
  }

  lemma FailedRun(parse: Data -> Parsed, s: State, w: WorkerId, error: string, retried: bool)
    ensures Run(parse, s, [PublishBuildFails(w), MarkFailed(w, error, retried)])
         == OnMarkFailed(OnFailAt(s, w, Committed), w, error, retried)
  {
    hide Run, OnFailAt, OnMarkFailed;
    RunOfTwo(parse, s, PublishBuildFails(w), MarkFailed(w, error, retried));
  }

  lemma CommittedIsDone(parse: Data -> Parsed, s: State, w: WorkerId)
    requires Enriched(parse, s, s) && At(s, w, Committed) && s.running[w].message.doc in s.docs
    ensures var d := s.running[w].message.doc;
      d in s.uploaded && AllChunks(parse, RowsOf(s.rows, d), d, s.uploaded[d])
  {
    hide AllChunks, RowsOf;
    assert ExecutionOk(parse, s, s.running[w]);
  }

  lemma WriteStep(s: State, g: WorkerId)
    requires HasSnapshot(s, g)
    ensures OnWriteGraph(s, g)
         == s.(running := s.running - {g}, graph := s.graph[s.running[g].message.doc := s.running[g].at.rows])
  {
  }

  lemma StoredMeans(s: State, w: WorkerId, g: WorkerId, d: DocId, contents: seq<Content>, ids: seq<RowId>)
    requires w in s.running && |ids| == |contents| && FreshIds(s, ids)
    ensures var t := Goto(Stored(s, d, contents, ids), w, Committed);
      && d in t.docs && t.docs[d].status == Ready
      && RowsOf(t.rows, d).Keys == (set r | r in ids)
      && (g != w && g in s.running ==> g in t.running && t.running[g] == s.running[g])
  {
    FreshMeans(s, ids);
    StoredRows(s.rows, d, contents, ids, d);
    NewRowsComplete(d, contents, ids);
    hide FreshIds, NewRows, WithoutRows, RowsOf, Complete;
  }
}
