// When the graph keeps showing the current chunk rows of a document: over all
// continuations of every reachable state of the ingestion protocol.

module IngestionFreshness {
  import opened Documents
  import opened Options
  import opened IngestionProtocol
  import opened IngestionRuns
  import opened IngestionRepeats
  import opened IngestionGraph

  // The graph shows the current rows of the document, as long as there is one.
  ghost predicate Current(s: State, d: DocId) {
    d in s.docs ==> d in s.graph && s.graph[d] == RowsOf(s.rows, d)
  }

  ghost predicate StaysCurrent(parse: Data -> Parsed, s: State, d: DocId) {
    forall later: seq<Event> :: Current(Run(parse, s, later), d)
  }

  // What running graph tasks have read of the document.
  ghost predicate SnapshotsAre(running: map<WorkerId, Execution>, d: DocId, rows: map<RowId, Row>) {
    forall w | w in running && running[w].message.doc == d && running[w].at.Snapshot? :: running[w].at.rows == rows
  }

  ghost predicate NoDownloads(running: map<WorkerId, Execution>, d: DocId) {
    forall w | w in running :: !(running[w].message.Ingest? && running[w].message.doc == d && running[w].at.Downloaded?)
  }

  // The file is gone and no ingestion holds its data.
  ghost predicate OutOfData(s: State, d: DocId) {
    d !in s.files && NoDownloads(s.running, d)
  }

  // The chunk rows of the document cannot be replaced by others any more.
  ghost predicate NoMoreStores(parse: Data -> Parsed, s: State, d: DocId)
    requires d in s.uploaded
  {
    Quiet(s, d) || OutOfData(s, d) || parse(s.uploaded[d]) == Chunks([])
  }

  // ----- One step, seen from the graph and the workers -----

  ghost predicate Held(u: State, d: DocId, rows: map<RowId, Row>) {
    d in u.graph && u.graph[d] == rows && SnapshotsAre(u.running, d, rows)
  }

  ghost predicate Dry(u: State, d: DocId, dry: bool) {
    dry ==> OutOfData(u, d)
  }

  ghost predicate Frozen(u: State, d: DocId, rows: map<RowId, Row>, dry: bool) {
    Held(u, d, rows) && Dry(u, d, dry)
  }

  lemma SameFrozen(s: State, t: State, d: DocId, rows: map<RowId, Row>, dry: bool)
    requires Frozen(s, d, rows, dry) && s.running == t.running && s.graph == t.graph
    requires d in t.files ==> d in s.files
    ensures Frozen(t, d, rows, dry)
  {
    hide SnapshotsAre, NoDownloads;
  }

  lemma EndFrozen(u: State, w: WorkerId, d: DocId, rows: map<RowId, Row>, dry: bool)
    requires Frozen(u, d, rows, dry)
    ensures Frozen(Finish(u, w), d, rows, dry)
    ensures Frozen(OnCrash(u, w), d, rows, dry) && Frozen(OnRedeliver(u, w), d, rows, dry)
    ensures w in u.running ==> Frozen(Retry(u, w), d, rows, dry)
  {
    var running := u.running - {w};
    assert SnapshotsAre(running, d, rows) && (dry ==> NoDownloads(running, d));
    hide SnapshotsAre, NoDownloads;
  }

  lemma GotoFrozen(u: State, w: WorkerId, p: Point, d: DocId, rows: map<RowId, Row>, dry: bool)
    requires Frozen(u, d, rows, dry) && w in u.running
    requires u.running[w].message.doc == d ==> (p.Snapshot? ==> p.rows == rows) && (p.Downloaded? ==> !dry)
    ensures Frozen(Goto(u, w, p), d, rows, dry)
  {
    var running := u.running[w := u.running[w].(at := p)];
    assert SnapshotsAre(running, d, rows) && (dry ==> NoDownloads(running, d));
    hide SnapshotsAre, NoDownloads;
  }

  lemma DeliverFrozen(u: State, w: WorkerId, m: Message, d: DocId, rows: map<RowId, Row>, dry: bool)
    requires Frozen(u, d, rows, dry)
    ensures Frozen(OnDeliver(u, w, m), d, rows, dry)
  {
    var running := u.running[w := Execution(m, Started)];
    assert SnapshotsAre(running, d, rows) && (dry ==> NoDownloads(running, d));
    hide SnapshotsAre, NoDownloads;
  }

  lemma MarkProcessingFrozen(u: State, w: WorkerId, d: DocId, rows: map<RowId, Row>, dry: bool)
    requires Frozen(u, d, rows, dry)
    ensures Frozen(OnMarkProcessing(u, w), d, rows, dry)
  {
    hide Frozen, Retry;
    EndFrozen(u, w, d, rows, dry);
    if w in u.running && u.running[w].message.doc in u.docs {
      var x := u.running[w].message.doc;
      var t := SetDocument(u, x, u.docs[x].(status := Processing));
      SameFrozen(u, t, d, rows, dry);
      GotoFrozen(t, w, Loaded, d, rows, dry);
    }
  }

  lemma MarkFailedFrozen(
      u: State, w: WorkerId, error: string, retried: bool, d: DocId, rows: map<RowId, Row>, dry: bool)
    requires Frozen(u, d, rows, dry)
    ensures Frozen(OnMarkFailed(u, w, error, retried), d, rows, dry)
  {
    hide Frozen, Retry, Finish;
    EndFrozen(u, w, d, rows, dry);
    if w in u.running && u.running[w].message.doc in u.docs {
      var x := u.running[w].message.doc;
      var t := SetDocument(u, x, u.docs[x].(status := Failed, error := Some(Truncated(error))));
      SameFrozen(u, t, d, rows, dry);
      EndFrozen(t, w, d, rows, dry);
    }
  }

  lemma DownloadFrozen(u: State, w: WorkerId, d: DocId, rows: map<RowId, Row>, dry: bool)
    requires Frozen(u, d, rows, dry)
    ensures Frozen(OnDownload(u, w), d, rows, dry)
  {
    assert dry ==> d !in u.files;
    hide Frozen, Goto;
    if w in u.running {
      GotoFrozen(u, w, Failing(false), d, rows, dry);
      var x := u.running[w].message.doc;
      if x in u.files {
        GotoFrozen(u, w, Downloaded(u.files[x]), d, rows, dry);
      }
    }
  }

  lemma LeaveFrozen(u: State, w: WorkerId, p: Point, d: DocId, rows: map<RowId, Row>, dry: bool)
    requires Frozen(u, d, rows, dry)
    ensures Frozen(OnEndAt(u, w, p), d, rows, dry) && Frozen(OnFailAt(u, w, p), d, rows, dry)
    ensures Frozen(OnStoreAborts(u, w), d, rows, dry) && Frozen(OnMarkFailedAborts(u, w), d, rows, dry)
    ensures Frozen(OnBuildFails(u, w), d, rows, dry)
  {
    hide Frozen, Finish, Goto;
    EndFrozen(u, w, d, rows, dry);
    if w in u.running {
      GotoFrozen(u, w, Failing(false), d, rows, dry);
    }
  }

  lemma PublishFrozen(u: State, w: WorkerId, d: DocId, rows: map<RowId, Row>, dry: bool)
    requires Frozen(u, d, rows, dry)
    ensures Frozen(OnPublishBuild(u, w), d, rows, dry)
  {
    hide Frozen;
    if At(u, w, Committed) {
      var t := u.(queue := u.queue + multiset{Build(u.running[w].message.doc, 0)});
      SameFrozen(u, t, d, rows, dry);
      GotoFrozen(t, w, Published, d, rows, dry);
    }
  }

  lemma StoreFrozen(
      parse: Data -> Parsed, u: State, w: WorkerId, ids: seq<RowId>, d: DocId, rows: map<RowId, Row>, dry: bool)
    requires Frozen(u, d, rows, dry)
    ensures Frozen(OnStore(parse, u, w, ids), d, rows, dry)
  {
    hide Frozen, FreshIds, NewRows, WithoutRows;
    if HasData(u, w) {
      GotoFrozen(u, w, Failing(false), d, rows, dry);
      GotoFrozen(u, w, Failing(true), d, rows, dry);
      var x := u.running[w].message.doc;
      var parsed := parse(u.running[w].at.data);
      if parsed.Chunks? && |ids| == |parsed.contents| {
        var t := Stored(u, x, parsed.contents, ids);
        SameFrozen(u, t, d, rows, dry);
        GotoFrozen(t, w, Committed, d, rows, dry);
      }
    }
  }

  lemma ReadFrozen(u: State, w: WorkerId, d: DocId, rows: map<RowId, Row>, dry: bool)
    requires Frozen(u, d, rows, dry) && RowsOf(u.rows, d) == rows
    ensures Frozen(OnReadRows(u, w), d, rows, dry)
  {
    hide Frozen, RowsOf;
    EndFrozen(u, w, d, rows, dry);
    if w in u.running {
      GotoFrozen(u, w, Snapshot(RowsOf(u.rows, u.running[w].message.doc)), d, rows, dry);
    }
  }

  lemma WriteFrozen(u: State, w: WorkerId, d: DocId, rows: map<RowId, Row>, dry: bool)
    requires Frozen(u, d, rows, dry)
    ensures Frozen(OnWriteGraph(u, w), d, rows, dry) && Frozen(OnWriteGraphFails(u, w), d, rows, dry)
  {
    hide Retry;
    EndFrozen(u, w, d, rows, dry);
    if HasSnapshot(u, w) {
      assert u.running[w].message.doc == d ==> u.running[w].at.rows == rows;
      hide SnapshotsAre, NoDownloads;
    }
  }

  lemma UploadFrozen(u: State, x: DocId, data: Data, d: DocId, rows: map<RowId, Row>, dry: bool)
    requires Frozen(u, d, rows, dry) && d in u.uploaded
    ensures Frozen(OnUpload(u, x, data), d, rows, dry)
  {
    hide Frozen;
    SameFrozen(u, OnUpload(u, x, data), d, rows, dry);
  }

  lemma PublishIngestFrozen(u: State, x: DocId, d: DocId, rows: map<RowId, Row>, dry: bool)
    requires Frozen(u, d, rows, dry)
    ensures Frozen(OnPublishIngest(u, x), d, rows, dry)
  {
    hide Frozen;
    SameFrozen(u, OnPublishIngest(u, x), d, rows, dry);
  }

  lemma EndCreateFrozen(u: State, x: DocId, d: DocId, rows: map<RowId, Row>, dry: bool)
    requires Frozen(u, d, rows, dry)
    ensures Frozen(OnCommitCreate(u, x), d, rows, dry) && Frozen(OnAbortCreate(u, x), d, rows, dry)
  {
    hide Frozen;
    SameFrozen(u, OnCommitCreate(u, x), d, rows, dry);
    SameFrozen(u, OnAbortCreate(u, x), d, rows, dry);
  }

  lemma DeleteFrozen(u: State, x: DocId, d: DocId, rows: map<RowId, Row>, dry: bool)
    requires Frozen(u, d, rows, dry)
    ensures Frozen(OnDeleteObject(u, x), d, rows, dry) && Frozen(OnDeleteDocument(u, x), d, rows, dry)
  {
    hide Frozen, WithoutRows;
    SameFrozen(u, OnDeleteObject(u, x), d, rows, dry);
    SameFrozen(u, OnDeleteDocument(u, x), d, rows, dry);
  }

  lemma ApiFrozen(parse: Data -> Parsed, u: State, e: Event, d: DocId, rows: map<RowId, Row>, dry: bool)
    requires Frozen(u, d, rows, dry) && d in u.uploaded
    requires OfApi(e)
    ensures Frozen(Apply(parse, u, e), d, rows, dry)
  {
    hide Frozen, OnUpload, OnCommitCreate, OnPublishIngest, OnAbortCreate, OnDeleteObject, OnDeleteDocument;
    match e
    case Upload(x, data) => UploadFrozen(u, x, data, d, rows, dry);
    case PublishIngest(x) => PublishIngestFrozen(u, x, d, rows, dry);
    case CommitCreate(x) => EndCreateFrozen(u, x, d, rows, dry);
    case AbortCreate(x) => EndCreateFrozen(u, x, d, rows, dry);
    case DeleteObject(x) => DeleteFrozen(u, x, d, rows, dry);
    case DeleteDocument(x) => DeleteFrozen(u, x, d, rows, dry);
  }

  lemma BrokerAndGraphFrozen(parse: Data -> Parsed, u: State, e: Event, d: DocId, rows: map<RowId, Row>, dry: bool)
    requires Frozen(u, d, rows, dry) && RowsOf(u.rows, d) == rows
    requires OfBrokerOrGraph(e)
    ensures Frozen(Apply(parse, u, e), d, rows, dry)
  {
    hide Frozen, OnDeliver, OnRedeliver, OnCrash, OnReadRows, OnWriteGraph, OnWriteGraphFails, OnBuildFails;
    match e
    case Deliver(w, m) => DeliverFrozen(u, w, m, d, rows, dry);
    case Redeliver(w) => EndFrozen(u, w, d, rows, dry);
    case Crash(w) => EndFrozen(u, w, d, rows, dry);
    case ReadRows(w) => ReadFrozen(u, w, d, rows, dry);
    case WriteGraph(w) => WriteFrozen(u, w, d, rows, dry);
    case WriteGraphFails(w) => WriteFrozen(u, w, d, rows, dry);
    case BuildFails(w) => LeaveFrozen(u, w, Started, d, rows, dry);
  }

  lemma IngestionFrozen(parse: Data -> Parsed, u: State, e: Event, d: DocId, rows: map<RowId, Row>, dry: bool)
    requires Frozen(u, d, rows, dry)
    requires !OfApi(e) && !OfBrokerOrGraph(e)
    ensures Frozen(Apply(parse, u, e), d, rows, dry)
  {
    hide Frozen, OnMarkProcessing, OnDownload, OnStore, OnStoreAborts, OnPublishBuild, OnFailAt, OnEndAt, OnMarkFailed,
      OnMarkFailedAborts;
    match e
    case MarkProcessing(w) => MarkProcessingFrozen(u, w, d, rows, dry);
    case MarkProcessingAborts(w) => LeaveFrozen(u, w, Started, d, rows, dry);
    case Download(w) => DownloadFrozen(u, w, d, rows, dry);
    case DownloadFails(w) => LeaveFrozen(u, w, Loaded, d, rows, dry);
    case Store(w, ids) => StoreFrozen(parse, u, w, ids, d, rows, dry);
    case StoreAborts(w) => LeaveFrozen(u, w, Started, d, rows, dry);
    case PublishBuild(w) => PublishFrozen(u, w, d, rows, dry);
    case PublishBuildFails(w) => LeaveFrozen(u, w, Committed, d, rows, dry);
    case Notify(w) => LeaveFrozen(u, w, Published, d, rows, dry);
    case NotifyFails(w) => LeaveFrozen(u, w, Published, d, rows, dry);
    case MarkFailed(w, error, retried) => MarkFailedFrozen(u, w, error, retried, d, rows, dry);
    case MarkFailedAborts(w) => LeaveFrozen(u, w, Started, d, rows, dry);
  }

  lemma StepFrozen(parse: Data -> Parsed, u: State, e: Event, d: DocId, rows: map<RowId, Row>, dry: bool)
    requires Frozen(u, d, rows, dry) && RowsOf(u.rows, d) == rows && d in u.uploaded
    ensures Frozen(Apply(parse, u, e), d, rows, dry)
  {
    hide Frozen, RowsOf, Apply;
    if OfApi(e) {
      ApiFrozen(parse, u, e, d, rows, dry);
    } else if OfBrokerOrGraph(e) {
      BrokerAndGraphFrozen(parse, u, e, d, rows, dry);
    } else {
      IngestionFrozen(parse, u, e, d, rows, dry);
    }
  }

  // ----- One step, seen from the chunk rows -----

  predicate SameRows(s: State, t: State) {
    s.rows == t.rows
  }

  lemma OthersKeepRows(s: State, w: WorkerId)
    ensures w in s.running ==> SameRows(s, Retry(s, w))
    ensures SameRows(s, OnCrash(s, w)) && SameRows(s, OnRedeliver(s, w))
    ensures SameRows(s, OnReadRows(s, w)) && SameRows(s, OnWriteGraph(s, w))
    ensures SameRows(s, OnBuildFails(s, w)) && SameRows(s, OnStoreAborts(s, w))
    ensures SameRows(s, OnPublishBuild(s, w)) && SameRows(s, OnMarkFailedAborts(s, w))
  {
    hide RowsOf;
    if w in s.running {
      EndKeepsTables(s, w);
    }
  }

  lemma RetriedKeepRows(s: State, w: WorkerId, error: string, retried: bool)
    ensures SameRows(s, OnMarkProcessing(s, w)) && SameRows(s, OnWriteGraphFails(s, w))
    ensures SameRows(s, OnMarkFailed(s, w, error, retried))
  {
    hide Retry, Finish;
    if w in s.running {
      EndKeepsTables(s, w);
      var d := s.running[w].message.doc;
      if d in s.docs {
        EndKeepsTables(SetDocument(s, d, s.docs[d].(status := Failed, error := Some(Truncated(error)))), w);
      }
    }
  }

  lemma StepsKeepRows(s: State, w: WorkerId, m: Message, p: Point)
    ensures SameRows(s, OnDeliver(s, w, m)) && SameRows(s, OnDownload(s, w))
    ensures SameRows(s, OnEndAt(s, w, p)) && SameRows(s, OnFailAt(s, w, p))
  {
  }

  lemma ApiKeepsRows(parse: Data -> Parsed, s: State, e: Event)
    requires OfApi(e) && !e.DeleteDocument?
    ensures SameRows(s, Apply(parse, s, e))
  {
  }

  lemma BrokerAndGraphKeepRows(parse: Data -> Parsed, s: State, e: Event)
    requires OfBrokerOrGraph(e)
    ensures SameRows(s, Apply(parse, s, e))
  {
    hide SameRows, OnDeliver, OnRedeliver, OnCrash, OnReadRows, OnWriteGraph, OnWriteGraphFails, OnBuildFails;
    match e
    case Deliver(w, m) => StepsKeepRows(s, w, m, Started);
    case Redeliver(w) => OthersKeepRows(s, w);
    case Crash(w) => OthersKeepRows(s, w);
    case ReadRows(w) => OthersKeepRows(s, w);
    case WriteGraph(w) => OthersKeepRows(s, w);
    case WriteGraphFails(w) => RetriedKeepRows(s, w, "", false);
    case BuildFails(w) => OthersKeepRows(s, w);
  }

  lemma IngestionKeepsRows(parse: Data -> Parsed, s: State, e: Event)
    requires !OfApi(e) && !OfBrokerOrGraph(e) && !e.Store?
    ensures SameRows(s, Apply(parse, s, e))
  {
    hide SameRows, OnMarkProcessing, OnDownload, OnStoreAborts, OnPublishBuild, OnFailAt, OnEndAt, OnMarkFailed,
      OnMarkFailedAborts;
    match e
    case MarkProcessing(w) => RetriedKeepRows(s, w, "", false);
    case MarkProcessingAborts(w) => StepsKeepRows(s, w, Ingest("", 0), Started);
    case Download(w) => StepsKeepRows(s, w, Ingest("", 0), Started);
    case DownloadFails(w) => StepsKeepRows(s, w, Ingest("", 0), Loaded);
    case StoreAborts(w) => OthersKeepRows(s, w);
    case PublishBuild(w) => OthersKeepRows(s, w);
    case PublishBuildFails(w) => StepsKeepRows(s, w, Ingest("", 0), Committed);
    case Notify(w) => StepsKeepRows(s, w, Ingest("", 0), Published);
    case NotifyFails(w) => StepsKeepRows(s, w, Ingest("", 0), Published);
    case MarkFailed(w, error, retried) => RetriedKeepRows(s, w, error, retried);
    case MarkFailedAborts(w) => OthersKeepRows(s, w);
  }

  // Only storing and deleting touch the chunk rows.
  lemma RowsAreKept(parse: Data -> Parsed, s: State, e: Event)
    requires !e.Store? && !e.DeleteDocument?
    ensures SameRows(s, Apply(parse, s, e))
  {
    hide SameRows, Apply;
    if OfApi(e) {
      ApiKeepsRows(parse, s, e);
    } else if OfBrokerOrGraph(e) {
      BrokerAndGraphKeepRows(parse, s, e);
    } else {
      IngestionKeepsRows(parse, s, e);
    }
  }

  lemma StoreOfAnother(parse: Data -> Parsed, s: State, w: WorkerId, ids: seq<RowId>, d: DocId)
    requires Invariant(parse, s) && Known(s, d) && NoDownloads(s.running, d)
    ensures RowsOf(OnStore(parse, s, w, ids).rows, d) == RowsOf(s.rows, d)
  {
    hide Invariant, Known, FreshIds, Stored, RowsOf;
    if HasData(s, w) {
      var x := s.running[w].message.doc;
      KnownExecution(parse, s, w);
      var parsed := parse(s.uploaded[x]);
      if x in s.docs && parsed.Chunks? && |ids| == |parsed.contents| && FreshIds(s, ids) {
        StoredElsewhere(s, x, parsed.contents, ids, d);
      }
    }
  }

  lemma StoredElsewhere(s: State, x: DocId, contents: seq<Content>, ids: seq<RowId>, d: DocId)
    requires |ids| == |contents| && FreshIds(s, ids) && x != d
    ensures RowsOf(Stored(s, x, contents, ids).rows, d) == RowsOf(s.rows, d)
  {
    FreshMeans(s, ids);
    hide FreshIds, RowsOf, WithoutRows, NewRows;
    StoredRows(s.rows, x, contents, ids, d);
  }

  // Without data the rows of a document stay, until it is deleted.
  lemma DryRowsStay(parse: Data -> Parsed, s: State, e: Event, d: DocId)
    requires Invariant(parse, s) && Known(s, d) && OutOfData(s, d) && d in Apply(parse, s, e).docs
    ensures RowsOf(Apply(parse, s, e).rows, d) == RowsOf(s.rows, d)
  {
    hide Invariant, Known, OnStore, RowsOf, WithoutRows;
    if e.Store? {
      StoreOfAnother(parse, s, e.w, e.ids, d);
    } else if e.DeleteDocument? {
      WithoutRowsOf(s.rows, e.d, d);
    } else {
      hide Apply;
      RowsAreKept(parse, s, e);
    }
  }

  // A file without chunks has no rows at any time.
  lemma NoChunksNoRows(parse: Data -> Parsed, s: State, d: DocId)
    requires Invariant(parse, s) && d in s.docs && parse(s.uploaded[d]) == Chunks([])
    ensures RowsOf(s.rows, d) == map[]
  {
    hide Invariant, RowsOf;
    KnownDocument(parse, s, d);
  }

  // ----- All continuations -----

  // The graph is current and nothing on its way will change that.
  ghost predicate Calm(parse: Data -> Parsed, s: State, d: DocId) {
    && d in s.docs && Known(s, d) && Current(s, d)
    && SnapshotsAre(s.running, d, RowsOf(s.rows, d))
    && NoMoreStores(parse, s, d)
  }

  lemma RowsStay(parse: Data -> Parsed, s: State, e: Event, d: DocId)
    requires Invariant(parse, s) && d in s.docs && Known(s, d) && NoMoreStores(parse, s, d)
    requires d in Apply(parse, s, e).docs
    ensures RowsOf(Apply(parse, s, e).rows, d) == RowsOf(s.rows, d)
  {
    hide Invariant, Apply, RowsOf, AllChunks, Quiet, OutOfData;
    var t := Apply(parse, s, e);
    StepAfter(parse, s, e, d);
    if OutOfData(s, d) {
      DryRowsStay(parse, s, e, d);
    } else if !Quiet(s, d) {
      StepKeepsInvariant(parse, s, e);
      NoChunksNoRows(parse, s, d);
      NoChunksNoRows(parse, t, d);
    }
  }

  lemma StepStaysCalm(parse: Data -> Parsed, s: State, e: Event, d: DocId)
    requires Invariant(parse, s) && Calm(parse, s, d)
    ensures d in Apply(parse, s, e).docs ==> Calm(parse, Apply(parse, s, e), d)
  {
    hide Invariant, Apply, RowsOf, AllChunks, Quiet, OutOfData, SnapshotsAre;
    var t := Apply(parse, s, e);
    StepAfter(parse, s, e, d);
    StepFrozen(parse, s, e, d, RowsOf(s.rows, d), OutOfData(s, d));
    if d in t.docs {
      RowsStay(parse, s, e, d);
    }
  }

  lemma {:induction false} CalmIsCurrent(parse: Data -> Parsed, s: State, later: seq<Event>, d: DocId)
    requires Invariant(parse, s) && Calm(parse, s, d)
    ensures Current(Run(parse, s, later), d)
    decreases |later|
  {
    hide Invariant, Apply, Calm, RowsOf;
    if later == [] {
      assert Current(s, d) by { CalmMeans(parse, s, d); }
    } else {
      var t := Apply(parse, s, later[0]);
      StepKeepsInvariant(parse, s, later[0]);
      StepStaysCalm(parse, s, later[0], d);
      if d in t.docs {
        CalmIsCurrent(parse, t, later[1..], d);
      } else {
        CalmMeans(parse, s, d);
        StepAfter(parse, s, later[0], d);
        RunAfter(parse, t, later[1..], d);
        GoneStaysGone(parse, s, t, Run(parse, t, later[1..]), d);
      }
    }
  }

  lemma CalmMeans(parse: Data -> Parsed, s: State, d: DocId)
    requires Calm(parse, s, d)
    ensures d in s.docs && Known(s, d) && Current(s, d)
  {
  }

  lemma GoneStaysGone(parse: Data -> Parsed, s: State, t: State, u: State, d: DocId)
    requires Known(s, d) && After(parse, s, t, d) && After(parse, t, u, d) && d !in t.docs
    ensures d !in u.docs
  {
  }

  // ----- What undoes it -----

  lemma StaleWriteUndoes(parse: Data -> Parsed, s: State, d: DocId)
    requires d in s.docs && !SnapshotsAre(s.running, d, RowsOf(s.rows, d))
    requires forall w | w in s.running && s.running[w].at.Snapshot? :: s.running[w].message.Build?
    ensures !StaysCurrent(parse, s, d)
  {
    hide Run, RowsOf;
    var g :| g in s.running && s.running[g].message.doc == d && s.running[g].at.Snapshot?
      && s.running[g].at.rows != RowsOf(s.rows, d);
    RunOfOne(parse, s, WriteGraph(g));
    WriteStep(s, g);
    assert !Current(Run(parse, s, [WriteGraph(g)]), d);
  }

  lemma NewIds(s: State, n: nat) returns (ids: seq<RowId>)
    ensures |ids| == n && FreshIds(s, ids)
  {
    var base := LongerThan(s.used + s.rows.Keys);
    ids := seq(n, i requires 0 <= i < n => seq(base + i, _ => 'i'));
    forall i | 0 <= i < n ensures ids[i] !in s.used && ids[i] !in s.rows {
      assert |ids[i]| == base + i;
    }
    assert forall i, j | 0 <= i < j < n :: |ids[i]| != |ids[j]|;
  }

  // Storing the chunks again gives them rows that the graph does not have.
  lemma StoreUndoes(parse: Data -> Parsed, s: State, w: WorkerId, d: DocId) returns (later: seq<Event>)
    requires Current(s, d) && d in s.docs && HasData(s, w) && s.running[w].message.doc == d
    requires parse(s.running[w].at.data).Chunks? && parse(s.running[w].at.data).contents != []
    ensures !Current(Run(parse, s, later), d)
  {
    hide Run, OnStore, FreshIds, Stored, RowsOf;
    var contents := parse(s.running[w].at.data).contents;
    var ids := NewIds(s, |contents|);
    later := [Store(w, ids)];
    RunOfOne(parse, s, Store(w, ids));
    StoreStep(parse, s, w, ids);
    StoredMeans(s, w, w, d, contents, ids);
    StoredKeepsGraph(s, w, d, contents, ids);
    OldRowsAreOthers(s, d, ids);
  }

  lemma StoredKeepsGraph(s: State, w: WorkerId, d: DocId, contents: seq<Content>, ids: seq<RowId>)
    requires w in s.running && |ids| == |contents|
    ensures Goto(Stored(s, d, contents, ids), w, Committed).graph == s.graph
  {
    hide NewRows, WithoutRows;
  }

  lemma OldRowsAreOthers(s: State, d: DocId, ids: seq<RowId>)
    requires FreshIds(s, ids) && ids != []
    ensures RowsOf(s.rows, d).Keys != set r | r in ids
  {
    var r := ids[0];
    assert r in ids && r !in s.rows;
    assert r !in RowsOf(s.rows, d).Keys && r in (set x | x in ids);
  }

  lemma DeliveryUndoes(parse: Data -> Parsed, s: State, m: Message, w: WorkerId) returns (later: seq<Event>)
    requires Current(s, m.doc) && m.Ingest? && m in s.queue && w !in s.running && m.doc in s.docs && m.doc in s.files
    requires parse(s.files[m.doc]).Chunks? && parse(s.files[m.doc]).contents != []
    ensures !Current(Run(parse, s, later), m.doc)
  {
    hide Run, Fetch, RowsOf;
    FetchRun(parse, s, w, m);
    var t := Fetched(s, w, m);
    var rest := StoreUndoes(parse, t, w, m.doc);
    later := Fetch(w, m) + rest;
    RunOfMore(parse, s, Fetch(w, m), rest);
  }

  lemma BusyIsNotCurrent(parse: Data -> Parsed, s: State, d: DocId)
    requires Invariant(parse, s) && d in s.docs && d in s.uploaded && Current(s, d)
    requires parse(s.uploaded[d]).Chunks? && !NoMoreStores(parse, s, d)
    ensures !StaysCurrent(parse, s, d)
  {
    hide Run, Invariant, RowsOf, Fetch;
    KnownDocument(parse, s, d);
    if !NoDownloads(s.running, d) {
      var w :| w in s.running && s.running[w].message.Ingest? && s.running[w].message.doc == d
        && s.running[w].at.Downloaded?;
      KnownExecution(parse, s, w);
      var later := StoreUndoes(parse, s, w, d);
    } else if !QuietQueue(s.queue, d) {
      var m :| m in s.queue && m.Ingest? && m.doc == d;
      var w := FreeWorker(s.running);
      var later := DeliveryUndoes(parse, s, m, w);
    } else {
      var w :| w in s.running && s.running[w].message.Ingest? && s.running[w].message.doc == d;
      var later := DeliveryUndoes(parse, OnCrash(s, w), s.running[w].message, w);
      RunAfterCrash(parse, s, w, later);
    }
  }

  // The main result. In every reachable state the graph shows the current rows
  // of a document in all continuations, until the document is deleted, exactly
  // when it does so now, no running graph task has read other rows, and the
  // rows cannot be replaced any more: no ingestion of the document is queued or
  // running, or its file is gone and no ingestion holds the data, or there are
  // no chunks to store.
  lemma {:induction false} GraphStaysCurrentIff(parse: Data -> Parsed, events: seq<Event>, d: DocId)
    ensures
      var s := Run(parse, INITIAL, events);
      d in s.docs ==>
        && d in s.uploaded
        && (StaysCurrent(parse, s, d) <==>
              Current(s, d) && SnapshotsAre(s.running, d, RowsOf(s.rows, d)) && NoMoreStores(parse, s, d))
  {
    var s := Reached(parse, events);
    ReachedGraph(parse, events, d);
    hide Run, Invariant, RowsOf, Quiet, OutOfData, SnapshotsAre, AllChunks;
    if d in s.docs {
      DocumentIsKnown(parse, s, d);
      if !Current(s, d) {
        NowIsNotCurrent(parse, s, d);
      } else if !SnapshotsAre(s.running, d, RowsOf(s.rows, d)) {
        StaleWriteUndoes(parse, s, d);
      } else if !NoMoreStores(parse, s, d) {
        BusyIsNotCurrent(parse, s, d);
      } else {
        forall later: seq<Event> ensures Current(Run(parse, s, later), d) {
          CalmIsCurrent(parse, s, later, d);
        }
      }
    }
  }

  lemma NowIsNotCurrent(parse: Data -> Parsed, s: State, d: DocId)
    requires !Current(s, d)
    ensures !StaysCurrent(parse, s, d)
  {
    hide Current;
    assert Run(parse, s, []) == s;
  }

  lemma ReachedGraph(parse: Data -> Parsed, events: seq<Event>, d: DocId)
    ensures var s := Run(parse, INITIAL, events);
      && (d in s.graph ==> d in s.uploaded && parse(s.uploaded[d]).Chunks?)
      && (forall w | w in s.running && s.running[w].at.Snapshot? :: s.running[w].message.Build?)
  {
    assert Enriched(parse, INITIAL, INITIAL) && Invariant(parse, INITIAL);
    hide Run, Invariant, Done, AllChunks;
    RunEnriched(parse, INITIAL, events);
    GraphHoldsWholeDocuments(parse, events, d);
    var s := Run(parse, INITIAL, events);
    if d in s.graph {
      ChunksExist(parse, s.graph[d], d, s.uploaded[d]);
    }
  }

  lemma ChunksExist(parse: Data -> Parsed, rows: map<RowId, Row>, d: DocId, data: Data)
    requires AllChunks(parse, rows, d, data)
    ensures parse(data).Chunks?
  {
  }
}
