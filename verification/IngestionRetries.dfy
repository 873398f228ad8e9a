// What becomes of a failed attempt: a file that cannot be parsed is tried once,
// a transient failure up to six times, a graph build up to four times
// (app/ingestion/tasks.py, app/graph/tasks.py). All of it is about runs only.

module IngestionRetries {
  import opened Documents
  import opened Options
  import opened IngestionProtocol
  import opened IngestionRuns

  // The document as a failed attempt leaves it.
  function FailedWith(document: Document, error: string): Document {
    Document(Failed, Some(if |error| <= 2000 then error else error[..2000]), document.chunkCount)
  }

  // The steps of an ingestion by name.
  lemma TakingIs(parse: Data -> Parsed, s: State, w: WorkerId, m: Message)
    ensures Apply(parse, s, Deliver(w, m)) == OnDeliver(s, w, m)
    ensures Apply(parse, s, MarkProcessing(w)) == OnMarkProcessing(s, w)
    ensures Apply(parse, s, Download(w)) == OnDownload(s, w)
  {
    hide OnDeliver, OnMarkProcessing, OnDownload;
  }

  lemma StoreIs(parse: Data -> Parsed, s: State, w: WorkerId, ids: seq<RowId>)
    ensures Apply(parse, s, Store(w, ids)) == OnStore(parse, s, w, ids)
    ensures Apply(parse, s, StoreAborts(w)) == OnStoreAborts(s, w)
  {
    hide OnStore, OnStoreAborts;
  }

  lemma LeavingIs(parse: Data -> Parsed, s: State, w: WorkerId)
    ensures Apply(parse, s, DownloadFails(w)) == OnFailAt(s, w, Loaded)
    ensures Apply(parse, s, PublishBuildFails(w)) == OnFailAt(s, w, Committed)
    ensures Apply(parse, s, NotifyFails(w)) == OnFailAt(s, w, Published)
  {
    hide OnFailAt;
  }

  lemma MarkFailedIs(parse: Data -> Parsed, s: State, w: WorkerId, error: string, retried: bool)
    ensures Apply(parse, s, MarkFailed(w, error, retried)) == OnMarkFailed(s, w, error, retried)
  {
    hide OnMarkFailed;
  }

  // ----- How a failing attempt ends -----

  // From the except branch to the end of the execution.
  lemma MarkedAndOver(s: State, w: WorkerId, d: DocId, r: nat, permanent: bool, error: string, retried: bool)
    requires w in s.running && s.running[w] == Execution(Ingest(d, r), Failing(permanent))
    ensures var t := OnMarkFailed(s, w, error, retried);
      t == s.(docs := if d in s.docs then s.docs[d := FailedWith(s.docs[d], error)] else s.docs,
              running := s.running - {w},
              queue := s.queue
                       + if !permanent && retried && r < 5 then multiset{Ingest(d, r + 1)} else multiset{})
  {
  }

  // An attempt that failed for a reason that may pass.
  lemma FailingAgain(s: State, w: WorkerId, d: DocId, r: nat, at: Point, permanent: bool)
    requires w in s.running && s.running[w] == Execution(Ingest(d, r), at)
    ensures var t := Goto(s, w, Failing(permanent));
      && t == s.(running := t.running)
      && w in t.running && t.running[w] == Execution(Ingest(d, r), Failing(permanent))
      && t.running - {w} == s.running - {w}
  {
  }

  // A worker that holds a file that cannot be parsed ends with the document
  // FAILED, and the queue stays as it is.
  lemma UnparsableIsNeverRetried(
      parse: Data -> Parsed, s: State, w: WorkerId, d: DocId, r: nat, ids: seq<RowId>, error: string, retried: bool)
    requires w in s.running && s.running[w].message == Ingest(d, r) && s.running[w].at.Downloaded?
    requires d in s.docs && parse(s.running[w].at.data).Unparsable?
    ensures Run(parse, s, [Store(w, ids), MarkFailed(w, error, retried)])
         == s.(docs := s.docs[d := FailedWith(s.docs[d], error)], running := s.running - {w})
  {
    hide Run, Apply, OnMarkFailed, FailedWith;
    RunOfTwo(parse, s, Store(w, ids), MarkFailed(w, error, retried));
    FailingAgain(s, w, d, r, s.running[w].at, true);
    var t := OnStore(parse, s, w, ids);
    StoreIs(parse, s, w, ids);
    MarkFailedIs(parse, t, w, error, retried);
    assert t == Goto(s, w, Failing(true));
    hide OnStore, Goto;
    MarkedAndOver(t, w, d, r, true, error, retried);
    assert s.queue + multiset{} == s.queue;
  }

  // The failures that may pass, by where the execution is.
  predicate FailsTransiently(s: State, w: WorkerId, d: DocId, e: Event)
    requires w in s.running
  {
    var at := s.running[w].at;
    || (at.Loaded? && (e == DownloadFails(w) || (e == Download(w) && d !in s.files)))
    || (at.Downloaded? && e == StoreAborts(w))
    || (at.Committed? && e == PublishBuildFails(w))
    || (at.Published? && e == NotifyFails(w))
  }

  lemma FailedStep(s: State, w: WorkerId)
    requires w in s.running && s.running[w].message.Ingest?
    ensures var at, failing := s.running[w].at, Goto(s, w, Failing(false));
      && (at.Loaded? && s.running[w].message.doc !in s.files ==> OnDownload(s, w) == failing)
      && (at.Downloaded? ==> OnStoreAborts(s, w) == failing)
      && OnFailAt(s, w, at) == failing
  {
    hide Goto;
  }

  lemma TransientStep(parse: Data -> Parsed, s: State, w: WorkerId, d: DocId, r: nat, e: Event)
    requires w in s.running && s.running[w].message == Ingest(d, r) && FailsTransiently(s, w, d, e)
    ensures Apply(parse, s, e) == Goto(s, w, Failing(false))
  {
    hide Goto, Apply, OnDownload, OnFailAt, OnStoreAborts;
    FailedStep(s, w);
    LeavingIs(parse, s, w);
    StoreIs(parse, s, w, []);
    TakingIs(parse, s, w, Ingest(d, r));
  }

  // Every other failure marks the document too, and asks for exactly one more
  // attempt as long as there were fewer than five retries.
  lemma TransientFailureIsRetried(
      parse: Data -> Parsed, s: State, w: WorkerId, d: DocId, r: nat, e: Event, error: string, retried: bool)
    requires w in s.running && s.running[w].message == Ingest(d, r) && FailsTransiently(s, w, d, e)
    ensures Run(parse, s, [e, MarkFailed(w, error, retried)])
         == s.(docs := if d in s.docs then s.docs[d := FailedWith(s.docs[d], error)] else s.docs,
               running := s.running - {w},
               queue := s.queue + if retried && r < 5 then multiset{Ingest(d, r + 1)} else multiset{})
  {
    hide Run, Apply, OnMarkFailed, FailedWith;
    RunOfTwo(parse, s, e, MarkFailed(w, error, retried));
    TransientStep(parse, s, w, d, r, e);
    FailingAgain(s, w, d, r, s.running[w].at, false);
    var t := Goto(s, w, Failing(false));
    hide Goto, FailsTransiently;
    MarkedAndOver(t, w, d, r, false, error, retried);
    MarkFailedIs(parse, t, w, error, retried);
  }

  // A graph build whose write fails is asked for again three times.
  lemma FailedBuildIsRetried(parse: Data -> Parsed, s: State, w: WorkerId, d: DocId, r: nat)
    requires w in s.running && s.running[w].message == Build(d, r) && s.running[w].at.Snapshot?
    ensures Run(parse, s, [WriteGraphFails(w)])
         == s.(running := s.running - {w},
               queue := s.queue + if r < 3 then multiset{Build(d, r + 1)} else multiset{})
  {
    hide Run;
    RunOfOne(parse, s, WriteGraphFails(w));
    assert s.queue + multiset{} == s.queue;
  }

  // An attempt that comes before the document is committed changes no table.
  lemma EarlyAttemptIsRetried(parse: Data -> Parsed, s: State, w: WorkerId, d: DocId, r: nat)
    requires w in s.running && s.running[w] == Execution(Ingest(d, r), Started) && d !in s.docs
    ensures Run(parse, s, [MarkProcessing(w)])
         == s.(running := s.running - {w},
               queue := s.queue + if r < 5 then multiset{Ingest(d, r + 1)} else multiset{})
  {
    hide Run;
    RunOfOne(parse, s, MarkProcessing(w));
    assert s.queue + multiset{} == s.queue;
  }

  // ----- Whole attempts, from the queue to the end -----

  // Up to the file being there.
  function TakeFile(w: WorkerId, m: Message): seq<Event> {
    [Deliver(w, m), MarkProcessing(w), Download(w)]
  }

  lemma FileTaken(parse: Data -> Parsed, s: State, w: WorkerId, m: Message)
    requires m.Ingest? && m in s.queue && w !in s.running && m.doc in s.docs && m.doc in s.files
    ensures Run(parse, s, TakeFile(w, m))
         == s.(queue := s.queue - multiset{m},
               docs := s.docs[m.doc := s.docs[m.doc].(status := Processing)],
               running := s.running[w := Execution(m, Downloaded(s.files[m.doc]))])
  {
    hide Run, Apply, OnDeliver, OnMarkProcessing, OnDownload;
    RunOfThree(parse, s, Deliver(w, m), MarkProcessing(w), Download(w));
    TakingIs(parse, s, w, m);
    DeliverStep(s, w, m);
    TakingIs(parse, OnDeliver(s, w, m), w, m);
    MarkStep(OnDeliver(s, w, m), w);
    var t := OnMarkProcessing(OnDeliver(s, w, m), w);
    hide At;
    TakingIs(parse, t, w, m);
    DownloadStep(t, w, m);
    OverwrittenTwice(s.running, w, Execution(m, Started), Execution(m, Loaded));
    OverwrittenTwice(s.running, w, Execution(m, Loaded), Execution(m, Downloaded(s.files[m.doc])));
  }

  lemma OverwrittenTwice(running: map<WorkerId, Execution>, w: WorkerId, x: Execution, y: Execution)
    ensures running[w := x][w := y] == running[w := y]
  {
  }

  lemma DownloadStep(s: State, w: WorkerId, m: Message)
    requires w in s.running && s.running[w] == Execution(m, Loaded) && m.Ingest? && m.doc in s.files
    ensures OnDownload(s, w) == s.(running := s.running[w := Execution(m, Downloaded(s.files[m.doc]))])
  {
  }

  // An attempt on a document whose file is there, ending with this failure.
  function FailedAttempt(w: WorkerId, m: Message, failure: Event, error: string): seq<Event> {
    TakeFile(w, m) + [failure, MarkFailed(w, error, true)]
  }

  lemma MarkedTwice(document: Document, error: string)
    ensures FailedWith(document.(status := Processing), error) == FailedWith(document, error)
    ensures FailedWith(FailedWith(document, error), error) == FailedWith(document, error)
  {
  }

  // What is left of a state after a whole attempt, whatever is queued then.
  lemma AttemptIsOver(s: State, w: WorkerId, m: Message, at: Point, error: string)
    requires m.doc in s.docs && w !in s.running
    ensures var d := m.doc;
      var t := s.(docs := s.docs[d := s.docs[d].(status := Processing)], running := s.running[w := Execution(m, at)]);
      && t.running - {w} == s.running
      && t.docs[d := FailedWith(t.docs[d], error)] == s.docs[d := FailedWith(s.docs[d], error)]
  {
    hide FailedWith;
    MarkedTwice(s.docs[m.doc], error);
    assert s.running[w := Execution(m, at)] - {w} == s.running;
  }

  // A file that cannot be parsed: one attempt, whatever the number of retries.
  lemma UnparsableIsTriedOnce(
      parse: Data -> Parsed, s: State, w: WorkerId, d: DocId, r: nat, ids: seq<RowId>, error: string)
    requires Ingest(d, r) in s.queue && w !in s.running
    requires d in s.docs && d in s.files && parse(s.files[d]).Unparsable?
    ensures Run(parse, s, FailedAttempt(w, Ingest(d, r), Store(w, ids), error))
         == s.(queue := s.queue - multiset{Ingest(d, r)}, docs := s.docs[d := FailedWith(s.docs[d], error)])
  {
    hide Run, TakeFile, FailedWith;
    var m := Ingest(d, r);
    RunOfMore(parse, s, TakeFile(w, m), [Store(w, ids), MarkFailed(w, error, true)]);
    FileTaken(parse, s, w, m);
    UnparsableIsNeverRetried(parse, Run(parse, s, TakeFile(w, m)), w, d, r, ids, error, true);
    AttemptIsOver(s, w, m, Downloaded(s.files[d]), error);
  }

  // One attempt after the other, each failing while it stores the chunks.
  function Attempts(w: WorkerId, d: DocId, r: nat, n: nat, error: string): seq<Event>
    decreases n
  {
    if n == 0 then []
    else FailedAttempt(w, Ingest(d, r), StoreAborts(w), error) + Attempts(w, d, r + 1, n - 1, error)
  }

  lemma OneAttempt(parse: Data -> Parsed, s: State, w: WorkerId, d: DocId, r: nat, error: string)
    requires Ingest(d, r) in s.queue && w !in s.running && d in s.docs && d in s.files
    ensures Run(parse, s, FailedAttempt(w, Ingest(d, r), StoreAborts(w), error))
         == s.(queue := s.queue - multiset{Ingest(d, r)}
                        + if r < 5 then multiset{Ingest(d, r + 1)} else multiset{},
               docs := s.docs[d := FailedWith(s.docs[d], error)])
  {
    hide Run, TakeFile, FailedWith;
    var m := Ingest(d, r);
    RunOfMore(parse, s, TakeFile(w, m), [StoreAborts(w), MarkFailed(w, error, true)]);
    FileTaken(parse, s, w, m);
    TransientFailureIsRetried(parse, Run(parse, s, TakeFile(w, m)), w, d, r, StoreAborts(w), error, true);
    AttemptIsOver(s, w, m, Downloaded(s.files[d]), error);
  }

  lemma OneForTheNext(queue: multiset<Message>, a: Message, b: Message, c: multiset<Message>)
    requires a in queue
    ensures queue - multiset{a} + multiset{b} - multiset{b} + c == queue - multiset{a} + c
  {
    assert queue - multiset{a} + multiset{b} - multiset{b} == queue - multiset{a};
  }

  // A task with r retries behind it can fail 6 - r more times: after fewer
  // failures the next attempt is queued, after that many nothing is.
  lemma {:induction false} TaskIsTriedSixTimes(
      parse: Data -> Parsed, s: State, w: WorkerId, d: DocId, r: nat, n: nat, error: string)
    requires Ingest(d, r) in s.queue && w !in s.running && d in s.docs && d in s.files
    requires 1 <= n <= 6 - r
    ensures Run(parse, s, Attempts(w, d, r, n, error))
         == s.(queue := s.queue - multiset{Ingest(d, r)}
                        + if r + n < 6 then multiset{Ingest(d, r + n)} else multiset{},
               docs := s.docs[d := FailedWith(s.docs[d], error)])
    decreases n
  {
    hide Run, FailedAttempt, FailedWith, Attempts;
    var first := FailedAttempt(w, Ingest(d, r), StoreAborts(w), error);
    FirstAttempt(w, d, r, n, error);
    OneAttempt(parse, s, w, d, r, error);
    if n > 1 {
      var t := Run(parse, s, first);
      RunOfMore(parse, s, first, Attempts(w, d, r + 1, n - 1, error));
      TaskIsTriedSixTimes(parse, t, w, d, r + 1, n - 1, error);
      AttemptAfterAttempt(s, d, Ingest(d, r), Ingest(d, r + 1),
        if r + n < 6 then multiset{Ingest(d, r + n)} else multiset{}, error);
    }
  }

  lemma FirstAttempt(w: WorkerId, d: DocId, r: nat, n: nat, error: string)
    requires n >= 1
    ensures var first := FailedAttempt(w, Ingest(d, r), StoreAborts(w), error);
      Attempts(w, d, r, n, error) == if n == 1 then first else first + Attempts(w, d, r + 1, n - 1, error)
  {
    hide FailedAttempt;
    assert Attempts(w, d, r + 1, 0, error) == [];
  }

  // What a second failed attempt makes of the state after the first.
  lemma AttemptAfterAttempt(s: State, d: DocId, a: Message, b: Message, c: multiset<Message>, error: string)
    requires a in s.queue && d in s.docs
    ensures var t := s.(
        queue := s.queue - multiset{a} + multiset{b}, docs := s.docs[d := FailedWith(s.docs[d], error)]);
      t.(queue := t.queue - multiset{b} + c, docs := t.docs[d := FailedWith(t.docs[d], error)])
      == s.(queue := s.queue - multiset{a} + c, docs := s.docs[d := FailedWith(s.docs[d], error)])
  {
    hide FailedWith;
    MarkedTwice(s.docs[d], error);
    OneForTheNext(s.queue, a, b, c);
  }

  // ----- All runs -----

  predicate Limited(m: Message) {
    m.retries <= if m.Ingest? then 5 else 3
  }

  ghost predicate QueueLimited(queue: multiset<Message>) {
    forall m | m in queue :: Limited(m)
  }

  ghost predicate WorkersLimited(running: map<WorkerId, Execution>) {
    forall w | w in running :: Limited(running[w].message)
  }

  ghost predicate AllLimited(s: State) {
    QueueLimited(s.queue) && WorkersLimited(s.running)
  }

  lemma TablesLimited(s: State, t: State)
    requires AllLimited(s) && t.queue == s.queue && t.running == s.running
    ensures AllLimited(t)
  {
  }

  lemma UploadLimited(s: State, d: DocId, data: Data)
    requires AllLimited(s)
    ensures AllLimited(OnUpload(s, d, data)) && AllLimited(OnAbortCreate(s, d))
  {
    hide AllLimited;
    TablesLimited(s, OnUpload(s, d, data));
    TablesLimited(s, OnAbortCreate(s, d));
  }

  lemma PublishIngestLimited(s: State, d: DocId)
    requires AllLimited(s)
    ensures AllLimited(OnPublishIngest(s, d))
  {
    hide WorkersLimited;
  }

  lemma DocumentLimited(s: State, d: DocId)
    requires AllLimited(s)
    ensures AllLimited(OnCommitCreate(s, d))
    ensures AllLimited(OnDeleteObject(s, d)) && AllLimited(OnDeleteDocument(s, d))
  {
    hide AllLimited, WithoutRows;
    TablesLimited(s, OnCommitCreate(s, d));
    TablesLimited(s, OnDeleteObject(s, d));
    TablesLimited(s, OnDeleteDocument(s, d));
  }

  lemma EndLimited(s: State, w: WorkerId)
    requires AllLimited(s)
    ensures AllLimited(Finish(s, w)) && AllLimited(OnCrash(s, w)) && AllLimited(OnRedeliver(s, w))
    ensures w in s.running ==> AllLimited(Retry(s, w))
  {
  }

  lemma GotoLimited(s: State, w: WorkerId, p: Point)
    requires AllLimited(s) && w in s.running
    ensures AllLimited(Goto(s, w, p))
  {
  }

  lemma DeliverLimited(s: State, w: WorkerId, m: Message)
    requires AllLimited(s)
    ensures AllLimited(OnDeliver(s, w, m))
  {
  }

  lemma LeaveLimited(s: State, w: WorkerId, p: Point)
    requires AllLimited(s)
    ensures AllLimited(OnFailAt(s, w, p)) && AllLimited(OnEndAt(s, w, p))
    ensures AllLimited(OnDownload(s, w)) && AllLimited(OnStoreAborts(s, w)) && AllLimited(OnMarkFailedAborts(s, w))
  {
    hide AllLimited, Goto, Finish;
    EndLimited(s, w);
    if w in s.running {
      forall q ensures AllLimited(Goto(s, w, q)) {
        GotoLimited(s, w, q);
      }
    }
  }

  lemma MarkLimited(s: State, w: WorkerId, error: string, retried: bool)
    requires AllLimited(s)
    ensures AllLimited(OnMarkProcessing(s, w)) && AllLimited(OnMarkFailed(s, w, error, retried))
  {
    hide AllLimited, Goto, Finish, Retry, Truncated;
    EndLimited(s, w);
    if w in s.running && s.running[w].message.doc in s.docs {
      var d := s.running[w].message.doc;
      var begun := SetDocument(s, d, s.docs[d].(status := Processing));
      var marked := SetDocument(s, d, s.docs[d].(status := Failed, error := Some(Truncated(error))));
      TablesLimited(s, begun);
      TablesLimited(s, marked);
      GotoLimited(begun, w, Loaded);
      EndLimited(marked, w);
    }
  }

  lemma StoreLimited(parse: Data -> Parsed, s: State, w: WorkerId, ids: seq<RowId>)
    requires AllLimited(s)
    ensures AllLimited(OnStore(parse, s, w, ids))
  {
    hide AllLimited, Goto, FreshIds, WithoutRows, NewRows;
    if HasData(s, w) {
      var d, parsed := s.running[w].message.doc, parse(s.running[w].at.data);
      GotoLimited(s, w, Failing(false));
      GotoLimited(s, w, Failing(true));
      if parsed.Chunks? && |ids| == |parsed.contents| {
        var t := Stored(s, d, parsed.contents, ids);
        TablesLimited(s, t);
        GotoLimited(t, w, Committed);
      }
    }
  }

  lemma PublishBuildLimited(s: State, w: WorkerId)
    requires AllLimited(s)
    ensures AllLimited(OnPublishBuild(s, w))
  {
    hide Goto;
    if At(s, w, Committed) {
      GotoLimited(s.(queue := s.queue + multiset{Build(s.running[w].message.doc, 0)}), w, Published);
    }
  }

  lemma GraphLimited(s: State, w: WorkerId)
    requires AllLimited(s)
    ensures AllLimited(OnReadRows(s, w)) && AllLimited(OnWriteGraph(s, w))
    ensures AllLimited(OnWriteGraphFails(s, w)) && AllLimited(OnBuildFails(s, w))
  {
    hide AllLimited, Goto, Finish, Retry, RowsOf;
    EndLimited(s, w);
    if w in s.running {
      GotoLimited(s, w, Snapshot(RowsOf(s.rows, s.running[w].message.doc)));
      if HasSnapshot(s, w) {
        TablesLimited(Finish(s, w), OnWriteGraph(s, w));
      }
    }
  }

  lemma ApiStepLimited(parse: Data -> Parsed, s: State, e: Event)
    requires AllLimited(s) && OfApi(e)
    ensures AllLimited(Apply(parse, s, e))
  {
    hide AllLimited, OnUpload, OnPublishIngest, OnCommitCreate, OnAbortCreate, OnDeleteObject, OnDeleteDocument;
    UploadLimited(s, e.d, if e.Upload? then e.data else "");
    PublishIngestLimited(s, e.d);
    DocumentLimited(s, e.d);
  }

  lemma BrokerAndGraphStepLimited(parse: Data -> Parsed, s: State, e: Event)
    requires AllLimited(s) && OfBrokerOrGraph(e)
    ensures AllLimited(Apply(parse, s, e))
  {
    hide AllLimited, OnDeliver, OnRedeliver, OnCrash, OnReadRows, OnWriteGraph, OnWriteGraphFails, OnBuildFails;
    EndLimited(s, e.w);
    GraphLimited(s, e.w);
    if e.Deliver? {
      DeliverLimited(s, e.w, e.m);
    }
  }

  lemma IngestionStepLimited(parse: Data -> Parsed, s: State, e: Event)
    requires AllLimited(s) && !OfApi(e) && !OfBrokerOrGraph(e)
    ensures AllLimited(Apply(parse, s, e))
  {
    hide AllLimited, OnMarkProcessing, OnEndAt, OnDownload, OnFailAt, OnStore, OnStoreAborts, OnPublishBuild,
      OnMarkFailed, OnMarkFailedAborts;
    match e
    case MarkProcessing(w) => MarkLimited(s, w, "", false);
    case MarkProcessingAborts(w) => LeaveLimited(s, w, Started);
    case Download(w) => LeaveLimited(s, w, Started);
    case DownloadFails(w) => LeaveLimited(s, w, Loaded);
    case Store(w, ids) => StoreLimited(parse, s, w, ids);
    case StoreAborts(w) => LeaveLimited(s, w, Started);
    case PublishBuild(w) => PublishBuildLimited(s, w);
    case PublishBuildFails(w) => LeaveLimited(s, w, Committed);
    case Notify(w) => LeaveLimited(s, w, Published);
    case NotifyFails(w) => LeaveLimited(s, w, Published);
    case MarkFailed(w, error, retried) => MarkLimited(s, w, error, retried);
    case MarkFailedAborts(w) => LeaveLimited(s, w, Started);
  }

  lemma {:induction false} RunLimited(parse: Data -> Parsed, s: State, events: seq<Event>)
    requires AllLimited(s)
    ensures AllLimited(Run(parse, s, events))
    decreases |events|
  {
    hide AllLimited, Apply;
    if events != [] {
      var e := events[0];
      if OfApi(e) {
        ApiStepLimited(parse, s, e);
      } else if OfBrokerOrGraph(e) {
        BrokerAndGraphStepLimited(parse, s, e);
      } else {
        IngestionStepLimited(parse, s, e);
      }
      RunLimited(parse, Apply(parse, s, e), events[1..]);
    }
  }

  // In no run does a task message carry more than five retries, or three for a graph build.
  lemma RetriesAreBounded(parse: Data -> Parsed, events: seq<Event>, m: Message)
    ensures var s := Run(parse, INITIAL, events);
      m in s.queue || (exists w :: w in s.running && s.running[w].message == m) ==>
        m.retries <= if m.Ingest? then 5 else 3
  {
    RunLimited(parse, INITIAL, events);
    hide Run;
  }
}
