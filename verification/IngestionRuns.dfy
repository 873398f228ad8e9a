// What can still happen to a document after a given moment, over all runs of
// the ingestion protocol: whether its status is final, whether chunks can get
// lost, and whether a deleted document can come back.

module IngestionRuns {
  import opened Documents
  import opened Options
  import opened IngestionProtocol

  // ----- One step, seen from one document -----

  // No task message for the document is queued and no ingestion of it runs.
  ghost predicate Quiet(s: State, d: DocId) {
    QuietQueue(s.queue, d) && QuietWorkers(s.running, d)
  }

  ghost predicate QuietQueue(queue: multiset<Message>, d: DocId) {
    forall m | m in queue :: !(m.Ingest? && m.doc == d)
  }

  ghost predicate QuietWorkers(running: map<WorkerId, Execution>, d: DocId) {
    forall w | w in running :: !(running[w].message.Ingest? && running[w].message.doc == d)
  }

  // The document row, if there still is one, and its chunk rows are the same.
  ghost predicate SameFor(s: State, t: State, d: DocId) {
    d in t.docs ==> d in s.docs && t.docs[d] == s.docs[d] && RowsOf(t.rows, d) == RowsOf(s.rows, d)
  }

  ghost predicate AllChunks(parse: Data -> Parsed, rows: map<RowId, Row>, d: DocId, data: Data) {
    parse(data).Chunks? && Complete(rows, d, parse(data).contents)
  }

  // Deleted, or with the same chunk rows, or with all of them.
  ghost predicate LaterRows(parse: Data -> Parsed, s: State, t: State, d: DocId)
    requires d in s.uploaded
  {
    d in t.docs ==>
      d in s.docs && (RowsOf(t.rows, d) == RowsOf(s.rows, d) || AllChunks(parse, RowsOf(t.rows, d), d, s.uploaded[d]))
  }

  // The document has been created: nothing creates it again.
  ghost predicate Known(s: State, d: DocId) {
    d in s.uploaded && d !in s.creating
  }

  ghost predicate After(parse: Data -> Parsed, s: State, t: State, d: DocId)
    requires Known(s, d)
  {
    && Known(t, d) && t.uploaded[d] == s.uploaded[d]
    && LaterRows(parse, s, t, d)
    && (Quiet(s, d) ==> Quiet(t, d) && SameFor(s, t, d))
  }

  predicate SameTables(s: State, t: State) {
    s.docs == t.docs && s.rows == t.rows && s.uploaded == t.uploaded && s.creating == t.creating
  }

  lemma SameTablesAfter(parse: Data -> Parsed, s: State, t: State, d: DocId)
    requires Known(s, d) && SameTables(s, t)
    requires Quiet(s, d) ==> Quiet(t, d)
    ensures After(parse, s, t, d)
  {
    hide Quiet, AllChunks, RowsOf;
  }

  lemma QuietFinish(s: State, w: WorkerId, d: DocId)
    requires Quiet(s, d)
    ensures Quiet(Finish(s, w), d) && Quiet(OnCrash(s, w), d) && Quiet(OnRedeliver(s, w), d)
    ensures w in s.running ==> Quiet(Retry(s, w), d)
  {
  }

  lemma QuietGoto(s: State, w: WorkerId, p: Point, d: DocId)
    requires Quiet(s, d) && w in s.running
    ensures Quiet(Goto(s, w, p), d)
  {
  }

  lemma UploadAfter(parse: Data -> Parsed, s: State, x: DocId, data: Data, d: DocId)
    requires Known(s, d)
    ensures After(parse, s, OnUpload(s, x, data), d)
  {
    hide QuietQueue, QuietWorkers, AllChunks, RowsOf;
  }

  lemma PublishIngestAfter(parse: Data -> Parsed, s: State, x: DocId, d: DocId)
    requires Known(s, d)
    ensures After(parse, s, OnPublishIngest(s, x), d)
  {
    hide QuietWorkers, AllChunks, RowsOf;
  }

  lemma CreateAfter(parse: Data -> Parsed, s: State, x: DocId, d: DocId)
    requires Known(s, d)
    ensures After(parse, s, OnAbortCreate(s, x), d)
    ensures After(parse, s, OnCommitCreate(s, x), d)
  {
    hide QuietQueue, QuietWorkers, AllChunks, RowsOf;
  }

  lemma DeleteAfter(parse: Data -> Parsed, s: State, x: DocId, d: DocId)
    requires Known(s, d)
    ensures After(parse, s, OnDeleteObject(s, x), d)
    ensures After(parse, s, OnDeleteDocument(s, x), d)
  {
    WithoutRowsOf(s.rows, x, d);
    hide QuietQueue, QuietWorkers, AllChunks, RowsOf, WithoutRows;
  }

  lemma DeliverAfter(parse: Data -> Parsed, s: State, w: WorkerId, m: Message, d: DocId)
    requires Known(s, d)
    ensures After(parse, s, OnDeliver(s, w, m), d)
  {
    assert Quiet(s, d) ==> Quiet(OnDeliver(s, w, m), d);
    hide Quiet, After;
    SameTablesAfter(parse, s, OnDeliver(s, w, m), d);
  }

  // Ending an execution, and what it may put back into the queue.
  lemma EndAfter(parse: Data -> Parsed, s: State, w: WorkerId, d: DocId)
    requires Known(s, d)
    ensures After(parse, s, Finish(s, w), d) && After(parse, s, OnCrash(s, w), d)
    ensures After(parse, s, OnRedeliver(s, w), d)
    ensures w in s.running ==> After(parse, s, Retry(s, w), d)
  {
    if Quiet(s, d) {
      QuietFinish(s, w, d);
    }
    hide Quiet, After;
    SameTablesAfter(parse, s, Finish(s, w), d);
    SameTablesAfter(parse, s, OnCrash(s, w), d);
    SameTablesAfter(parse, s, OnRedeliver(s, w), d);
    if w in s.running {
      SameTablesAfter(parse, s, Retry(s, w), d);
    }
  }

  lemma GotoAfter(parse: Data -> Parsed, s: State, w: WorkerId, p: Point, d: DocId)
    requires Known(s, d) && w in s.running
    ensures After(parse, s, Goto(s, w, p), d)
  {
    if Quiet(s, d) {
      QuietGoto(s, w, p, d);
    }
    hide Quiet, After;
    SameTablesAfter(parse, s, Goto(s, w, p), d);
  }

  // Two steps in one, the first of which is safe for the second's document.
  lemma AfterBoth(parse: Data -> Parsed, s: State, t: State, u: State, d: DocId)
    requires Known(s, d) && After(parse, s, t, d) && After(parse, t, u, d)
    ensures After(parse, s, u, d)
  {
    hide Quiet, AllChunks, RowsOf;
  }

  // A step of an ingestion of x, on the document row of x.
  lemma SetAfter(parse: Data -> Parsed, s: State, w: WorkerId, x: DocId, document: Document, d: DocId)
    requires Known(s, d) && x in s.docs
    requires w in s.running && s.running[w].message.Ingest? && s.running[w].message.doc == x
    ensures After(parse, s, SetDocument(s, x, document), d)
  {
    hide AllChunks, RowsOf, QuietQueue;
  }

  lemma MarkProcessingAfter(parse: Data -> Parsed, s: State, w: WorkerId, d: DocId)
    requires Known(s, d)
    ensures After(parse, s, OnMarkProcessing(s, w), d)
  {
    hide After, Retry, Known;
    if w in s.running {
      var x := s.running[w].message.doc;
      EndAfter(parse, s, w, d);
      if At(s, w, Started) && x in s.docs {
        var t := SetDocument(s, x, s.docs[x].(status := Processing));
        SetAfter(parse, s, w, x, s.docs[x].(status := Processing), d);
        assert Known(t, d) by { KnownAfter(parse, s, t, d); }
        GotoAfter(parse, t, w, Loaded, d);
        AfterBoth(parse, s, t, Goto(t, w, Loaded), d);
      }
    }
    StillAfter(parse, s, d);
  }

  lemma KnownAfter(parse: Data -> Parsed, s: State, t: State, d: DocId)
    requires Known(s, d) && After(parse, s, t, d)
    ensures Known(t, d) && t.uploaded[d] == s.uploaded[d]
  {
  }

  lemma StillAfter(parse: Data -> Parsed, s: State, d: DocId)
    requires Known(s, d)
    ensures After(parse, s, s, d)
  {
  }

  lemma MarkFailedAfter(parse: Data -> Parsed, s: State, w: WorkerId, error: string, retried: bool, d: DocId)
    requires Known(s, d)
    ensures After(parse, s, OnMarkFailed(s, w, error, retried), d)
  {
    hide After, Retry, Finish, Known;
    StillAfter(parse, s, d);
    if IsFailing(s, w) {
      var x := s.running[w].message.doc;
      EndAfter(parse, s, w, d);
      if x in s.docs {
        var document := s.docs[x].(status := Failed, error := Some(Truncated(error)));
        var t := SetDocument(s, x, document);
        SetAfter(parse, s, w, x, document, d);
        KnownAfter(parse, s, t, d);
        EndAfter(parse, t, w, d);
        AfterBoth(parse, s, t, Retry(t, w), d);
        AfterBoth(parse, s, t, Finish(t, w), d);
      }
    }
  }

  lemma StoredLater(parse: Data -> Parsed, s: State, x: DocId, ids: seq<RowId>, d: DocId)
    requires Known(s, d) && x in s.docs && x in s.uploaded
    requires parse(s.uploaded[x]).Chunks? && |ids| == |parse(s.uploaded[x]).contents| && FreshIds(s, ids)
    ensures LaterRows(parse, s, Stored(s, x, parse(s.uploaded[x]).contents, ids), d)
    ensures d != x ==> SameFor(s, Stored(s, x, parse(s.uploaded[x]).contents, ids), d)
  {
    var contents := parse(s.uploaded[x]).contents;
    StoredRows(s.rows, x, contents, ids, d);
    NewRowsComplete(x, contents, ids);
    hide FreshIds, RowsOf, WithoutRows, NewRows, Complete;
  }

  lemma StoredAfter(parse: Data -> Parsed, s: State, w: WorkerId, x: DocId, ids: seq<RowId>, d: DocId)
    requires Known(s, d) && x in s.docs && x in s.uploaded
    requires w in s.running && s.running[w].message.Ingest? && s.running[w].message.doc == x
    requires parse(s.uploaded[x]).Chunks? && |ids| == |parse(s.uploaded[x]).contents| && FreshIds(s, ids)
    ensures After(parse, s, Stored(s, x, parse(s.uploaded[x]).contents, ids), d)
  {
    StoredLater(parse, s, x, ids, d);
    assert d == x ==> !QuietWorkers(s.running, d);
    hide FreshIds, WithoutRows, NewRows, LaterRows, SameFor, QuietQueue, QuietWorkers;
  }

  lemma StoreAfter(parse: Data -> Parsed, s: State, w: WorkerId, ids: seq<RowId>, d: DocId)
    requires Invariant(parse, s) && Known(s, d)
    ensures After(parse, s, OnStore(parse, s, w, ids), d)
  {
    hide Invariant, After, Known, FreshIds, NewRows, WithoutRows;
    StillAfter(parse, s, d);
    if HasData(s, w) {
      var x := s.running[w].message.doc;
      KnownExecution(parse, s, w);
      var parsed := parse(s.uploaded[x]);
      GotoAfter(parse, s, w, Failing(false), d);
      GotoAfter(parse, s, w, Failing(true), d);
      if x in s.docs && parsed.Chunks? && |ids| == |parsed.contents| && FreshIds(s, ids) {
        var t := Stored(s, x, parsed.contents, ids);
        StoredAfter(parse, s, w, x, ids, d);
        KnownAfter(parse, s, t, d);
        GotoAfter(parse, t, w, Committed, d);
        AfterBoth(parse, s, t, Goto(t, w, Committed), d);
      }
    }
  }

  lemma PublishBuildAfter(parse: Data -> Parsed, s: State, w: WorkerId, d: DocId)
    requires Known(s, d)
    ensures After(parse, s, OnPublishBuild(s, w), d)
  {
    SameTablesAfter(parse, s, OnPublishBuild(s, w), d);
  }

  lemma GraphAfter(parse: Data -> Parsed, s: State, w: WorkerId, d: DocId)
    requires Known(s, d)
    ensures After(parse, s, OnReadRows(s, w), d)
    ensures After(parse, s, OnWriteGraph(s, w), d) && After(parse, s, OnWriteGraphFails(s, w), d)
  {
    hide After, Known, Retry, RowsOf;
    StillAfter(parse, s, d);
    EndAfter(parse, s, w, d);
    if w in s.running {
      GotoAfter(parse, s, w, Snapshot(RowsOf(s.rows, s.running[w].message.doc)), d);
    }
    if HasSnapshot(s, w) {
      var t := Finish(s, w);
      KnownAfter(parse, s, t, d);
      SameTablesAfter(parse, t, OnWriteGraph(s, w), d) by { assert Quiet(t, d) == Quiet(OnWriteGraph(s, w), d); }
      AfterBoth(parse, s, t, OnWriteGraph(s, w), d);
    }
  }

  lemma LeaveAfter(parse: Data -> Parsed, s: State, w: WorkerId, p: Point, d: DocId)
    requires Known(s, d)
    ensures After(parse, s, OnEndAt(s, w, p), d) && After(parse, s, OnFailAt(s, w, p), d)
    ensures After(parse, s, OnStoreAborts(s, w), d) && After(parse, s, OnMarkFailedAborts(s, w), d)
    ensures After(parse, s, OnDownload(s, w), d) && After(parse, s, OnBuildFails(s, w), d)
  {
    hide After, Known, Finish, Goto;
    StillAfter(parse, s, d);
    EndAfter(parse, s, w, d);
    if w in s.running {
      GotoAfter(parse, s, w, Failing(false), d);
      var x := s.running[w].message.doc;
      if x in s.files {
        GotoAfter(parse, s, w, Downloaded(s.files[x]), d);
      }
    }
  }

  lemma ApiAfter(parse: Data -> Parsed, s: State, e: Event, d: DocId)
    requires Known(s, d)
    requires OfApi(e)
    ensures After(parse, s, Apply(parse, s, e), d)
  {
    hide After, Known, OnUpload, OnCommitCreate, OnPublishIngest, OnAbortCreate, OnDeleteObject, OnDeleteDocument;
    match e
    case Upload(x, data) => UploadAfter(parse, s, x, data, d);
    case PublishIngest(x) => PublishIngestAfter(parse, s, x, d);
    case CommitCreate(x) => CreateAfter(parse, s, x, d);
    case AbortCreate(x) => CreateAfter(parse, s, x, d);
    case DeleteObject(x) => DeleteAfter(parse, s, x, d);
    case DeleteDocument(x) => DeleteAfter(parse, s, x, d);
  }

  lemma BrokerAndGraphAfter(parse: Data -> Parsed, s: State, e: Event, d: DocId)
    requires Known(s, d)
    requires OfBrokerOrGraph(e)
    ensures After(parse, s, Apply(parse, s, e), d)
  {
    hide After, Known, OnDeliver, OnRedeliver, OnCrash, OnReadRows, OnWriteGraph, OnWriteGraphFails, OnBuildFails;
    match e
    case Deliver(w, m) => DeliverAfter(parse, s, w, m, d);
    case Redeliver(w) => EndAfter(parse, s, w, d);
    case Crash(w) => EndAfter(parse, s, w, d);
    case ReadRows(w) => GraphAfter(parse, s, w, d);
    case WriteGraph(w) => GraphAfter(parse, s, w, d);
    case WriteGraphFails(w) => GraphAfter(parse, s, w, d);
    case BuildFails(w) => LeaveAfter(parse, s, w, Started, d);
  }

  lemma IngestionAfter(parse: Data -> Parsed, s: State, e: Event, d: DocId)
    requires Invariant(parse, s) && Known(s, d) && !OfApi(e) && !OfBrokerOrGraph(e)
    ensures After(parse, s, Apply(parse, s, e), d)
  {
    hide Invariant, After, Known, OnMarkProcessing, OnDownload, OnStore, OnStoreAborts, OnPublishBuild,
      OnFailAt, OnEndAt, OnMarkFailed, OnMarkFailedAborts;
    match e
    case MarkProcessing(w) => MarkProcessingAfter(parse, s, w, d);
    case MarkProcessingAborts(w) => LeaveAfter(parse, s, w, Started, d);
    case Download(w) => LeaveAfter(parse, s, w, Loaded, d);
    case DownloadFails(w) => LeaveAfter(parse, s, w, Loaded, d);
    case Store(w, ids) => StoreAfter(parse, s, w, ids, d);
    case StoreAborts(w) => LeaveAfter(parse, s, w, Started, d);
    case PublishBuild(w) => PublishBuildAfter(parse, s, w, d);
    case PublishBuildFails(w) => LeaveAfter(parse, s, w, Committed, d);
    case Notify(w) => LeaveAfter(parse, s, w, Published, d);
    case NotifyFails(w) => LeaveAfter(parse, s, w, Published, d);
    case MarkFailed(w, error, retried) => MarkFailedAfter(parse, s, w, error, retried, d);
    case MarkFailedAborts(w) => LeaveAfter(parse, s, w, Started, d);
  }

  lemma StepAfter(parse: Data -> Parsed, s: State, e: Event, d: DocId)
    requires Invariant(parse, s) && Known(s, d)
    ensures After(parse, s, Apply(parse, s, e), d)
  {
    hide Invariant, After, Known, Apply;
    if OfApi(e) {
      ApiAfter(parse, s, e, d);
    } else if OfBrokerOrGraph(e) {
      BrokerAndGraphAfter(parse, s, e, d);
    } else {
      IngestionAfter(parse, s, e, d);
    }
  }

  // ----- All runs -----

  lemma {:induction false} RunAfter(parse: Data -> Parsed, s: State, events: seq<Event>, d: DocId)
    requires Invariant(parse, s) && Known(s, d)
    ensures After(parse, s, Run(parse, s, events), d)
    decreases |events|
  {
    hide Invariant, After, Known, Apply;
    if events == [] {
      StillAfter(parse, s, d);
    } else {
      var t := Apply(parse, s, events[0]);
      StepAfter(parse, s, events[0], d);
      StepKeepsInvariant(parse, s, events[0]);
      KnownAfter(parse, s, t, d);
      RunAfter(parse, t, events[1..], d);
      AfterBoth(parse, s, t, Run(parse, t, events[1..]), d);
    }
  }

  // Once the chunks of a document are committed, they stay complete until the
  // document is deleted: no failure, retry or repetition loses them.
  lemma {:induction false} CompletenessIsNeverLost(
      parse: Data -> Parsed, events: seq<Event>, later: seq<Event>, d: DocId)
    ensures
      var s := Run(parse, INITIAL, events);
      var t := Run(parse, s, later);
      d in s.docs ==>
        && d in s.uploaded
        && (AllChunks(parse, RowsOf(s.rows, d), d, s.uploaded[d]) && d in t.docs ==>
              AllChunks(parse, RowsOf(t.rows, d), d, s.uploaded[d]))
  {
    var s := Reached(parse, events);
    hide Invariant, Apply, AllChunks, RowsOf;
    if d in s.docs {
      DocumentIsKnown(parse, s, d);
      hide Run;
      RunAfter(parse, s, later, d);
    }
  }

  // A document that was uploaded, and is neither there nor being created any
  // more, never comes back, and it has no chunk rows.
  lemma {:induction false} DeletionIsFinal(parse: Data -> Parsed, events: seq<Event>, later: seq<Event>, d: DocId)
    ensures
      var s := Run(parse, INITIAL, events);
      var t := Run(parse, s, later);
      Known(s, d) && d !in s.docs ==> d !in t.docs && RowsOf(t.rows, d) == map[]
  {
    var s := Reached(parse, events);
    hide Run, Apply, AllChunks, RowsOf, Quiet, DocsOk, CreatingOk, FilesOk, GraphOk, RunningOk, RowsOk;
    if Known(s, d) && d !in s.docs {
      RunAfter(parse, s, later, d);
      RunKeepsInvariant(parse, s, later);
      var t := Run(parse, s, later);
      NoRows(t.rows, t.docs, t.used, d);
    }
  }

  // The state after a run from the start, and its invariant.
  lemma Reached(parse: Data -> Parsed, events: seq<Event>) returns (s: State)
    ensures s == Run(parse, INITIAL, events) && Invariant(parse, s)
  {
    s := Run(parse, INITIAL, events);
    assert Invariant(parse, INITIAL);
    hide Invariant, Run;
    RunKeepsInvariant(parse, INITIAL, events);
  }

  lemma DocumentIsKnown(parse: Data -> Parsed, s: State, d: DocId)
    requires Invariant(parse, s) && d in s.docs
    ensures Known(s, d)
  {
    hide DocumentOk, RowsOf;
  }

  // ----- Runs of a few steps -----

  lemma RunOfOne(parse: Data -> Parsed, s: State, e: Event)
    ensures Run(parse, s, [e]) == Apply(parse, s, e)
  {
    hide Apply;
    assert [e][1..] == [];
  }

  lemma RunOfTwo(parse: Data -> Parsed, s: State, a: Event, b: Event)
    ensures Run(parse, s, [a, b]) == Apply(parse, Apply(parse, s, a), b)
  {
    hide Apply;
    var t := Apply(parse, s, a);
    assert [a, b][1..] == [b] && [b][1..] == [];
    assert Run(parse, t, [b]) == Run(parse, Apply(parse, t, b), []);
  }

  lemma RunOfThree(parse: Data -> Parsed, s: State, a: Event, b: Event, c: Event)
    ensures Run(parse, s, [a, b, c]) == Apply(parse, Apply(parse, Apply(parse, s, a), b), c)
  {
    hide Apply;
    var t := Apply(parse, s, a);
    assert [a, b, c][1..] == [b, c];
    assert Run(parse, s, [a, b, c]) == Run(parse, t, [b, c]);
    RunOfTwo(parse, t, b, c);
  }

  lemma {:induction false} RunOfMore(parse: Data -> Parsed, s: State, first: seq<Event>, rest: seq<Event>)
    ensures Run(parse, s, first + rest) == Run(parse, Run(parse, s, first), rest)
    decreases |first|
  {
    hide Apply;
    if first == [] {
      assert first + rest == rest;
    } else {
      assert (first + rest)[0] == first[0] && (first + rest)[1..] == first[1..] + rest;
      RunOfMore(parse, Apply(parse, s, first[0]), first[1..], rest);
    }
  }

  lemma DeliverStep(s: State, w: WorkerId, m: Message)
    requires m in s.queue && w !in s.running
    ensures OnDeliver(s, w, m) == s.(queue := s.queue - multiset{m}, running := s.running[w := Execution(m, Started)])
  {
  }

  lemma MarkStep(s: State, w: WorkerId)
    requires At(s, w, Started) && s.running[w].message.doc in s.docs
    ensures var d := s.running[w].message.doc;
      OnMarkProcessing(s, w)
      == s.(running := s.running[w := s.running[w].(at := Loaded)],
            docs := s.docs[d := s.docs[d].(status := Processing)])
  {
  }

  lemma FailStep(s: State, w: WorkerId, p: Point)
    requires At(s, w, p)
    ensures var t := OnFailAt(s, w, p);
      IsFailing(t, w) && t.running[w].message == s.running[w].message && SameTables(s, t)
  {
  }

  lemma MarkedFailed(s: State, w: WorkerId, error: string, retried: bool)
    requires IsFailing(s, w) && s.running[w].message.doc in s.docs
    ensures var t, d := OnMarkFailed(s, w, error, retried), s.running[w].message.doc;
      d in t.docs && t.docs[d].status == Failed && t.rows == s.rows
  {
    hide Retry, Finish;
    var d := s.running[w].message.doc;
    var marked := SetDocument(s, d, s.docs[d].(status := Failed, error := Some(Truncated(error))));
    EndKeepsTables(marked, w);
  }

  lemma EndKeepsTables(s: State, w: WorkerId)
    requires w in s.running
    ensures SameTables(Finish(s, w), s)
    ensures SameTables(Retry(s, w), s)
  {
    var done := Finish(s, w);
    assert SameTables(done, s);
    hide Finish;
    assert forall queue :: SameTables(done.(queue := queue), s);
    hide SameTables;
  }

  lemma FailedAt(s: State, w: WorkerId, p: Point, error: string, retried: bool)
    requires At(s, w, p) && s.running[w].message.doc in s.docs
    ensures var t, d := OnMarkFailed(OnFailAt(s, w, p), w, error, retried), s.running[w].message.doc;
      d in t.docs && t.docs[d].status == Failed && t.rows == s.rows
  {
    FailStep(s, w, p);
    hide OnFailAt, OnMarkFailed, At, IsFailing;
    MarkedFailed(OnFailAt(s, w, p), w, error, retried);
  }

  lemma RunAfterCrash(parse: Data -> Parsed, s: State, w: WorkerId, events: seq<Event>)
    ensures Run(parse, s, [Crash(w)] + events) == Run(parse, OnCrash(s, w), events)
  {
    hide OnCrash;
    var all := [Crash(w)] + events;
    assert all[0] == Crash(w) && all[1..] == events;
  }

  lemma LongerThan(names: set<string>) returns (n: nat)
    ensures forall x | x in names :: |x| < n
  {
    if names == {} {
      n := 0;
    } else {
      var x :| x in names;
      n := LongerThan(names - {x});
      if n <= |x| {
        n := |x| + 1;
      }
    }
  }

  lemma FreeWorker(running: map<WorkerId, Execution>) returns (w: WorkerId)
    ensures w !in running
  {
    var n := LongerThan(running.Keys);
    w := seq(n, _ => 'w');
  }

  // ----- When a status is final -----

  predicate SameStatus(s: State, t: State, d: DocId)
    requires d in s.docs
  {
    d in t.docs ==> t.docs[d].status == s.docs[d].status
  }

  ghost predicate StatusStays(parse: Data -> Parsed, s: State, d: DocId)
    requires d in s.docs
  {
    forall later: seq<Event> :: SameStatus(s, Run(parse, s, later), d)
  }

  function Take(w: WorkerId, m: Message): seq<Event> {
    [Deliver(w, m), MarkProcessing(w)]
  }

  function Fail(w: WorkerId): seq<Event> {
    [DownloadFails(w), MarkFailed(w, "", false)]
  }

  lemma TakeRun(parse: Data -> Parsed, s: State, m: Message, w: WorkerId)
    requires m in s.queue && m.Ingest? && m.doc in s.docs && w !in s.running
    ensures var t := Run(parse, s, Take(w, m));
      && t.running == s.running[w := Execution(m, Loaded)]
      && t.docs == s.docs[m.doc := s.docs[m.doc].(status := Processing)]
  {
    hide Run, OnDeliver, OnMarkProcessing;
    RunOfTwo(parse, s, Deliver(w, m), MarkProcessing(w));
    DeliverStep(s, w, m);
    MarkStep(OnDeliver(s, w, m), w);
    assert s.running[w := Execution(m, Started)][w := Execution(m, Loaded)] == s.running[w := Execution(m, Loaded)];
  }

  // Delivering a message for the document takes READY away.
  lemma DeliveryUndoesReady(parse: Data -> Parsed, s: State, m: Message, w: WorkerId)
    requires m in s.queue && m.Ingest? && m.doc in s.docs && w !in s.running
    ensures var t := Run(parse, s, Take(w, m));
      m.doc in t.docs && t.docs[m.doc].status == Processing
  {
    hide Run, Take;
    TakeRun(parse, s, m, w);
  }

  lemma DeliveryCanFail(parse: Data -> Parsed, s: State, m: Message, w: WorkerId)
    requires m in s.queue && m.Ingest? && m.doc in s.docs && w !in s.running
    ensures var t := Run(parse, s, Take(w, m) + Fail(w));
      m.doc in t.docs && t.docs[m.doc].status == Failed
  {
    hide Run, Take, Fail, OnFailAt, OnMarkFailed;
    TakeRun(parse, s, m, w);
    var t := Run(parse, s, Take(w, m));
    RunOfMore(parse, s, Take(w, m), Fail(w));
    FailRun(parse, t, w);
    FailedAt(t, w, Loaded, "", false);
  }

  lemma FailRun(parse: Data -> Parsed, s: State, w: WorkerId)
    ensures Run(parse, s, Fail(w)) == OnMarkFailed(OnFailAt(s, w, Loaded), w, "", false)
  {
    hide Run, OnFailAt, OnMarkFailed;
    RunOfTwo(parse, s, DownloadFails(w), MarkFailed(w, "", false));
  }

  // A message of the document can change its status, whatever this is.
  lemma DeliveryChangesStatus(parse: Data -> Parsed, s: State, m: Message, w: WorkerId) returns (later: seq<Event>)
    requires m in s.queue && m.Ingest? && m.doc in s.docs && w !in s.running
    ensures !SameStatus(s, Run(parse, s, later), m.doc)
  {
    hide Run, Take, Fail;
    DeliveryUndoesReady(parse, s, m, w);
    DeliveryCanFail(parse, s, m, w);
    later := if s.docs[m.doc].status == Processing then Take(w, m) + Fail(w) else Take(w, m);
  }

  lemma BusyIsNotFinal(parse: Data -> Parsed, s: State, d: DocId)
    requires d in s.docs && !Quiet(s, d)
    ensures !StatusStays(parse, s, d)
  {
    hide Run, Apply;
    if !QuietQueue(s.queue, d) {
      var m :| m in s.queue && m.Ingest? && m.doc == d;
      var w := FreeWorker(s.running);
      var later := DeliveryChangesStatus(parse, s, m, w);
    } else {
      var w :| w in s.running && s.running[w].message.Ingest? && s.running[w].message.doc == d;
      var later := DeliveryChangesStatus(parse, OnCrash(s, w), s.running[w].message, w);
      RunAfterCrash(parse, s, w, later);
    }
  }

  lemma QuietIsFinal(parse: Data -> Parsed, s: State, d: DocId)
    requires Invariant(parse, s) && d in s.docs && Quiet(s, d)
    ensures StatusStays(parse, s, d)
  {
    hide Run, Invariant, Quiet, RowsOf;
    DocumentIsKnown(parse, s, d);
    forall later: seq<Event> ensures SameStatus(s, Run(parse, s, later), d) {
      RunAfter(parse, s, later, d);
    }
  }

  // In every reachable state a document keeps its status until it is deleted,
  // whatever happens, exactly when it has no task message and no execution left.
  lemma {:induction false} StatusIsFinalIffQuiet(parse: Data -> Parsed, events: seq<Event>, d: DocId)
    ensures
      var s := Run(parse, INITIAL, events);
      d in s.docs ==> (StatusStays(parse, s, d) <==> Quiet(s, d))
  {
    var s := Reached(parse, events);
    hide Run, Invariant, RowsOf, StatusStays, Quiet;
    if d in s.docs {
      if Quiet(s, d) {
        QuietIsFinal(parse, s, d);
      } else {
        BusyIsNotFinal(parse, s, d);
      }
    }
  }

  // A quiet document stays as it is, with its chunk rows, until it is deleted.
  lemma {:induction false} QuietDocumentsAreStuck(
      parse: Data -> Parsed, events: seq<Event>, later: seq<Event>, d: DocId)
    ensures
      var s := Run(parse, INITIAL, events);
      d in s.docs && Quiet(s, d) ==> SameFor(s, Run(parse, s, later), d)
  {
    var s := Reached(parse, events);
    hide Run, Invariant, Quiet, RowsOf;
    if d in s.docs && Quiet(s, d) {
      DocumentIsKnown(parse, s, d);
      RunAfter(parse, s, later, d);
    }
  }
}
