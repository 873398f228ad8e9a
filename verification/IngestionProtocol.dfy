// The ingestion protocol (app/ingestion/tasks.py, app/documents/service.py,
// app/graph/tasks.py) as a state machine: workers, the broker, the database,
// the object store and the graph, with every interleaving of deliveries,
// duplicate deliveries, crashes, rollbacks, retries and deletions.
//
// Every transaction is one step, with a separate step for its rollback.

module IngestionProtocol {
  import opened Documents
  import opened Options

  // Documents and chunk rows have UUIDs, here in text form; a worker is named by its execution.
  type DocId = string
  type RowId = string
  type WorkerId = string

  // What is in a file and in a chunk does not matter here, only that it stays the same.
  type Data = string
  type Content = string

  const INGEST_MAX_RETRIES: nat := 5
  const GRAPH_MAX_RETRIES: nat := 3
  const ERROR_LIMIT: nat := 2000

  // error[:2000]
  function Truncated(error: string): string {
    if |error| <= ERROR_LIMIT then error else error[..ERROR_LIMIT]
  }

  // What parsing and chunking make of a file.
  datatype Parsed = Chunks(contents: seq<Content>) | Unparsable

  datatype Document = Document(status: Status, error: Option<string>, chunkCount: nat)

  datatype Row = Row(doc: DocId, index: nat, content: Content)

  datatype Message = Ingest(doc: DocId, retries: nat) | Build(doc: DocId, retries: nat)

  // Where an execution is.
  datatype Point =
    | Started
    | Loaded                        // status PROCESSING is committed
    | Downloaded(data: Data)
    | Committed                     // chunks and READY are committed
    | Published                     // the graph task is queued
    | Failing(permanent: bool)      // in an except branch
    | Snapshot(rows: map<RowId, Row>)

  datatype Execution = Execution(message: Message, at: Point)

  datatype State = State(
    files: map<DocId, Data>,            // object store, one path per document
    uploaded: map<DocId, Data>,         // what was ever uploaded under that path
    creating: map<DocId, bool>,         // open API transactions; has the task been published?
    docs: map<DocId, Document>,
    rows: map<RowId, Row>,
    used: set<RowId>,                   // chunk ids handed out so far
    queue: multiset<Message>,
    running: map<WorkerId, Execution>,
    graph: map<DocId, map<RowId, Row>>) // the chunk rows of the last graph build

  const INITIAL := State(map[], map[], map[], map[], map[], {}, multiset{}, map[], map[])

  datatype Event =
    // the API
    | Upload(d: DocId, data: Data)
    | PublishIngest(d: DocId)
    | CommitCreate(d: DocId)
    | AbortCreate(d: DocId)
    | DeleteObject(d: DocId)
    | DeleteDocument(d: DocId)
    // the broker
    | Deliver(w: WorkerId, m: Message)
    | Redeliver(w: WorkerId)
    | Crash(w: WorkerId)
    // an ingestion
    | MarkProcessing(w: WorkerId)
    | MarkProcessingAborts(w: WorkerId)
    | Download(w: WorkerId)
    | DownloadFails(w: WorkerId)
    | Store(w: WorkerId, ids: seq<RowId>)
    | StoreAborts(w: WorkerId)
    | PublishBuild(w: WorkerId)
    | PublishBuildFails(w: WorkerId)
    | Notify(w: WorkerId)
    | NotifyFails(w: WorkerId)
    | MarkFailed(w: WorkerId, error: string, retried: bool)
    | MarkFailedAborts(w: WorkerId)
    // a graph build
    | ReadRows(w: WorkerId)
    | WriteGraph(w: WorkerId)
    | WriteGraphFails(w: WorkerId)
    | BuildFails(w: WorkerId)

  predicate OfApi(e: Event) {
    e.Upload? || e.PublishIngest? || e.CommitCreate? || e.AbortCreate? || e.DeleteObject? || e.DeleteDocument?
  }

  predicate OfBrokerOrGraph(e: Event) {
    || e.Deliver? || e.Redeliver? || e.Crash?
    || e.ReadRows? || e.WriteGraph? || e.WriteGraphFails? || e.BuildFails?
  }

  // ----- Database operations -----

  function RowsOf(rows: map<RowId, Row>, d: DocId): map<RowId, Row> {
    map r | r in rows && rows[r].doc == d :: rows[r]
  }

  function WithoutRows(rows: map<RowId, Row>, d: DocId): map<RowId, Row> {
    map r | r in rows && rows[r].doc != d :: rows[r]
  }

  // The rows that an ingestion inserts.
  function NewRows(d: DocId, contents: seq<Content>, ids: seq<RowId>): map<RowId, Row>
    requires |ids| == |contents|
  {
    if ids == [] then map[]
    else
      var n := |ids| - 1;
      NewRows(d, contents[..n], ids[..n])[ids[n] := Row(d, n, contents[n])]
  }

  predicate DistinctIds(ids: seq<RowId>) {
    forall i, j | 0 <= i < j < |ids| :: ids[i] != ids[j]
  }

  predicate FreshIds(s: State, ids: seq<RowId>) {
    DistinctIds(ids) && forall r | r in ids :: r !in s.used && r !in s.rows
  }

  // ----- Steps -----

  predicate At(s: State, w: WorkerId, p: Point) {
    w in s.running && s.running[w].at == p && s.running[w].message.Ingest?
  }

  function Goto(s: State, w: WorkerId, p: Point): State
    requires w in s.running
  {
    s.(running := s.running[w := s.running[w].(at := p)])
  }

  function Finish(s: State, w: WorkerId): State {
    s.(running := s.running - {w})
  }

  // self.retry: a new message until the retries are used up.
  function Retry(s: State, w: WorkerId): State
    requires w in s.running
  {
    var m := s.running[w].message;
    var limit := if m.Ingest? then INGEST_MAX_RETRIES else GRAPH_MAX_RETRIES;
    var next := m.(retries := m.retries + 1);
    if m.retries < limit then Finish(s, w).(queue := s.queue + multiset{next}) else Finish(s, w)
  }

  function SetDocument(s: State, d: DocId, document: Document): State {
    s.(docs := s.docs[d := document])
  }

  // Each step is a function of the state before it; a step that is not
  // enabled changes nothing.

  function OnUpload(s: State, d: DocId, data: Data): State {
    if d in s.uploaded then s
    else s.(files := s.files[d := data], uploaded := s.uploaded[d := data], creating := s.creating[d := false])
  }

  function OnPublishIngest(s: State, d: DocId): State {
    if d in s.creating && !s.creating[d] then
      s.(queue := s.queue + multiset{Ingest(d, 0)}, creating := s.creating[d := true])
    else s
  }

  function OnCommitCreate(s: State, d: DocId): State {
    if d in s.creating && s.creating[d] then
      SetDocument(s.(creating := s.creating - {d}), d, Document(Pending, None, 0))
    else s
  }

  function OnAbortCreate(s: State, d: DocId): State {
    s.(creating := s.creating - {d})
  }

  function OnDeleteObject(s: State, d: DocId): State {
    if d in s.docs then s.(files := s.files - {d}) else s
  }

  // The object goes first; the rows of the document go with it.
  function OnDeleteDocument(s: State, d: DocId): State {
    if d in s.docs && d !in s.files then s.(docs := s.docs - {d}, rows := WithoutRows(s.rows, d)) else s
  }

  function OnDeliver(s: State, w: WorkerId, m: Message): State {
    if w !in s.running && m in s.queue then
      s.(queue := s.queue - multiset{m}, running := s.running[w := Execution(m, Started)])
    else s
  }

  function OnRedeliver(s: State, w: WorkerId): State {
    if w in s.running then s.(queue := s.queue + multiset{s.running[w].message}) else s
  }

  function OnCrash(s: State, w: WorkerId): State {
    if w in s.running then Finish(s, w).(queue := s.queue + multiset{s.running[w].message}) else s
  }

  function OnMarkProcessing(s: State, w: WorkerId): State {
    if At(s, w, Started) then
      var d := s.running[w].message.doc;
      if d in s.docs then Goto(SetDocument(s, d, s.docs[d].(status := Processing)), w, Loaded) else Retry(s, w)
    else s
  }

  function OnDownload(s: State, w: WorkerId): State {
    if At(s, w, Loaded) then
      var d := s.running[w].message.doc;
      Goto(s, w, if d in s.files then Downloaded(s.files[d]) else Failing(false))
    else s
  }

  predicate HasData(s: State, w: WorkerId) {
    w in s.running && s.running[w].message.Ingest? && s.running[w].at.Downloaded?
  }

  function OnStore(parse: Data -> Parsed, s: State, w: WorkerId, ids: seq<RowId>): State {
    if HasData(s, w) then
      var d := s.running[w].message.doc;
      var parsed := parse(s.running[w].at.data);
      if d !in s.docs then Goto(s, w, Failing(false))
      else if parsed.Unparsable? then Goto(s, w, Failing(true))
      else if |ids| == |parsed.contents| && FreshIds(s, ids) then
        Goto(Stored(s, d, parsed.contents, ids), w, Committed)
      else s
    else s
  }

  function OnStoreAborts(s: State, w: WorkerId): State {
    if HasData(s, w) then Goto(s, w, Failing(false)) else s
  }

  function OnPublishBuild(s: State, w: WorkerId): State {
    if At(s, w, Committed) then
      Goto(s.(queue := s.queue + multiset{Build(s.running[w].message.doc, 0)}), w, Published)
    else s
  }

  // An execution at this point leaves it for another, or ends.
  function OnFailAt(s: State, w: WorkerId, p: Point): State {
    if At(s, w, p) then Goto(s, w, Failing(false)) else s
  }

  function OnEndAt(s: State, w: WorkerId, p: Point): State {
    if At(s, w, p) then Finish(s, w) else s
  }

  predicate IsFailing(s: State, w: WorkerId) {
    w in s.running && s.running[w].message.Ingest? && s.running[w].at.Failing?
  }

  // The next attempt of a transient failure may itself fail to be published.
  function OnMarkFailed(s: State, w: WorkerId, error: string, retried: bool): State {
    if IsFailing(s, w) then
      var d := s.running[w].message.doc;
      var marked :=
        if d in s.docs then SetDocument(s, d, s.docs[d].(status := Failed, error := Some(Truncated(error))))
        else s;
      if s.running[w].at.permanent || !retried then Finish(marked, w) else Retry(marked, w)
    else s
  }

  function OnMarkFailedAborts(s: State, w: WorkerId): State {
    if IsFailing(s, w) then Finish(s, w) else s
  }

  function OnReadRows(s: State, w: WorkerId): State {
    if w in s.running && s.running[w].message.Build? && s.running[w].at == Started then
      var d := s.running[w].message.doc;
      if d in s.docs then Goto(s, w, Snapshot(RowsOf(s.rows, d))) else Finish(s, w)
    else s
  }

  predicate HasSnapshot(s: State, w: WorkerId) {
    w in s.running && s.running[w].message.Build? && s.running[w].at.Snapshot?
  }

  function OnWriteGraph(s: State, w: WorkerId): State {
    if HasSnapshot(s, w) then
      Finish(s, w).(graph := s.graph[s.running[w].message.doc := s.running[w].at.rows])
    else s
  }

  function OnWriteGraphFails(s: State, w: WorkerId): State {
    if HasSnapshot(s, w) then Retry(s, w) else s
  }

  // A graph task that fails outside its retried part, or that cannot be retried.
  function OnBuildFails(s: State, w: WorkerId): State {
    if w in s.running && s.running[w].message.Build? then Finish(s, w) else s
  }

  function Apply(parse: Data -> Parsed, s: State, e: Event): State {
    match e
    case Upload(d, data) => OnUpload(s, d, data)
    case PublishIngest(d) => OnPublishIngest(s, d)
    case CommitCreate(d) => OnCommitCreate(s, d)
    case AbortCreate(d) => OnAbortCreate(s, d)
    case DeleteObject(d) => OnDeleteObject(s, d)
    case DeleteDocument(d) => OnDeleteDocument(s, d)
    case Deliver(w, m) => OnDeliver(s, w, m)
    case Redeliver(w) => OnRedeliver(s, w)
    case Crash(w) => OnCrash(s, w)
    case MarkProcessing(w) => OnMarkProcessing(s, w)
    case MarkProcessingAborts(w) => OnEndAt(s, w, Started)
    case Download(w) => OnDownload(s, w)
    case DownloadFails(w) => OnFailAt(s, w, Loaded)
    case Store(w, ids) => OnStore(parse, s, w, ids)
    case StoreAborts(w) => OnStoreAborts(s, w)
    case PublishBuild(w) => OnPublishBuild(s, w)
    case PublishBuildFails(w) => OnFailAt(s, w, Committed)
    case Notify(w) => OnEndAt(s, w, Published)
    case NotifyFails(w) => OnFailAt(s, w, Published)
    case MarkFailed(w, error, retried) => OnMarkFailed(s, w, error, retried)
    case MarkFailedAborts(w) => OnMarkFailedAborts(s, w)
    case ReadRows(w) => OnReadRows(s, w)
    case WriteGraph(w) => OnWriteGraph(s, w)
    case WriteGraphFails(w) => OnWriteGraphFails(s, w)
    case BuildFails(w) => OnBuildFails(s, w)
  }

  // run_ingestion, committed: old rows out, new rows in, READY.
  function Stored(s: State, d: DocId, contents: seq<Content>, ids: seq<RowId>): State
    requires |ids| == |contents|
  {
    s.(rows := WithoutRows(s.rows, d) + NewRows(d, contents, ids),
       used := s.used + (set r | r in ids),
       docs := s.docs[d := Document(Ready, None, |contents|)])
  }

  function Run(parse: Data -> Parsed, s: State, events: seq<Event>): State
    decreases |events|
  {
    if events == [] then s else Run(parse, Apply(parse, s, events[0]), events[1..])
  }

  // ----- What holds in every reachable state -----

  // These rows are the chunks, each once, numbered from 0.
  ghost predicate Complete(rows: map<RowId, Row>, d: DocId, contents: seq<Content>) {
    && |rows| == |contents|
    && (forall r | r in rows ::
          rows[r].doc == d && rows[r].index < |contents| && rows[r].content == contents[rows[r].index])
    && (forall r, q | r in rows && q in rows && r != q :: rows[r].index != rows[q].index)
  }

  ghost predicate EmptyOrComplete(parse: Data -> Parsed, rows: map<RowId, Row>, d: DocId, data: Data) {
    rows == map[] || (parse(data).Chunks? && Complete(rows, d, parse(data).contents))
  }

  // A document, its chunk rows and the file it was uploaded with.
  ghost predicate DocumentOk(parse: Data -> Parsed, document: Document, rows: map<RowId, Row>, d: DocId, data: Data) {
    && EmptyOrComplete(parse, rows, d, data)
    && document.chunkCount == |rows|
    && (document.status == Ready ==>
          document.error == None && parse(data).Chunks? && Complete(rows, d, parse(data).contents))
    && (document.status == Failed ==> document.error.Some?)
    && (document.status == Pending ==> document.error == None && rows == map[])
  }

  ghost predicate DocsOk(
      parse: Data -> Parsed, docs: map<DocId, Document>, rows: map<RowId, Row>, uploaded: map<DocId, Data>)
  {
    forall d | d in docs :: d in uploaded && DocumentOk(parse, docs[d], RowsOf(rows, d), d, uploaded[d])
  }

  ghost predicate CreatingOk(creating: map<DocId, bool>, docs: map<DocId, Document>, uploaded: map<DocId, Data>) {
    forall d | d in creating :: d in uploaded && d !in docs
  }

  ghost predicate FilesOk(files: map<DocId, Data>, uploaded: map<DocId, Data>) {
    forall d | d in files :: d in uploaded && files[d] == uploaded[d]
  }

  ghost predicate RowsOk(rows: map<RowId, Row>, docs: map<DocId, Document>, used: set<RowId>) {
    forall r | r in rows :: rows[r].doc in docs && r in used
  }

  ghost predicate GraphOk(parse: Data -> Parsed, graph: map<DocId, map<RowId, Row>>, uploaded: map<DocId, Data>) {
    forall d | d in graph :: d in uploaded && EmptyOrComplete(parse, graph[d], d, uploaded[d])
  }

  // What an execution may carry.
  ghost predicate CarriedOk(parse: Data -> Parsed, x: Execution, uploaded: map<DocId, Data>) {
    var d := x.message.doc;
    && (x.at.Downloaded? ==> d in uploaded && x.at.data == uploaded[d])
    && (x.at.Snapshot? ==> d in uploaded && EmptyOrComplete(parse, x.at.rows, d, uploaded[d]))
  }

  ghost predicate RunningOk(parse: Data -> Parsed, running: map<WorkerId, Execution>, uploaded: map<DocId, Data>) {
    forall w | w in running :: CarriedOk(parse, running[w], uploaded)
  }

  ghost predicate Invariant(parse: Data -> Parsed, s: State) {
    && DocsOk(parse, s.docs, s.rows, s.uploaded)
    && CreatingOk(s.creating, s.docs, s.uploaded)
    && FilesOk(s.files, s.uploaded)
    && RowsOk(s.rows, s.docs, s.used)
    && GraphOk(parse, s.graph, s.uploaded)
    && RunningOk(parse, s.running, s.uploaded)
  }

  // ----- The rows an ingestion stores -----

  lemma {:induction false} NewRowsDomain(d: DocId, contents: seq<Content>, ids: seq<RowId>)
    requires |ids| == |contents|
    ensures NewRows(d, contents, ids).Keys == set r | r in ids
    ensures DistinctIds(ids) ==> |NewRows(d, contents, ids)| == |ids|
  {
    if ids != [] {
      var n := |ids| - 1;
      var init := NewRows(d, contents[..n], ids[..n]);
      NewRowsDomain(d, contents[..n], ids[..n]);
      assert ids == ids[..n] + [ids[n]];
      assert NewRows(d, contents, ids).Keys == init.Keys + {ids[n]};
    }
  }

  lemma {:induction false} NewRowsAt(d: DocId, contents: seq<Content>, ids: seq<RowId>, i: nat)
    requires |ids| == |contents| && DistinctIds(ids) && i < |ids|
    ensures ids[i] in NewRows(d, contents, ids) && NewRows(d, contents, ids)[ids[i]] == Row(d, i, contents[i])
    decreases |ids|
  {
    var n := |ids| - 1;
    if i < n {
      NewRowsAt(d, contents[..n], ids[..n], i);
    }
  }

  lemma {:induction false} NewRowsComplete(d: DocId, contents: seq<Content>, ids: seq<RowId>)
    requires |ids| == |contents| && DistinctIds(ids)
    ensures Complete(NewRows(d, contents, ids), d, contents)
    ensures NewRows(d, contents, ids).Keys == set r | r in ids
  {
    hide NewRows;
    var rows := NewRows(d, contents, ids);
    NewRowsDomain(d, contents, ids);
    forall i | 0 <= i < |ids| ensures ids[i] in rows && rows[ids[i]] == Row(d, i, contents[i]) {
      NewRowsAt(d, contents, ids, i);
    }
    forall r | r in rows ensures exists i :: 0 <= i < |ids| && ids[i] == r {
      assert r in ids;
    }
  }

  lemma StoredRows(
      rows: map<RowId, Row>, d: DocId, contents: seq<Content>, ids: seq<RowId>, x: DocId)
    requires |ids| == |contents| && DistinctIds(ids) && forall r | r in ids :: r !in rows
    ensures RowsOf(WithoutRows(rows, d) + NewRows(d, contents, ids), x)
         == if x == d then NewRows(d, contents, ids) else RowsOf(rows, x)
  {
    var added := NewRows(d, contents, ids);
    NewRowsComplete(d, contents, ids);
    assert forall r | r in added :: added[r].doc == d && r !in rows;
    hide NewRows, Complete;
    MergedRows(rows, added, d, x);
  }

  lemma MergedRows(rows: map<RowId, Row>, added: map<RowId, Row>, d: DocId, x: DocId)
    requires forall r | r in added :: added[r].doc == d && r !in rows
    ensures RowsOf(WithoutRows(rows, d) + added, x) == if x == d then added else RowsOf(rows, x)
  {
    var all := WithoutRows(rows, d) + added;
    if x == d {
      assert RowsOf(all, x).Keys == added.Keys;
    } else {
      assert RowsOf(all, x).Keys == RowsOf(rows, x).Keys;
    }
  }

  lemma WithoutRowsOf(rows: map<RowId, Row>, d: DocId, x: DocId)
    ensures RowsOf(WithoutRows(rows, d), x) == if x == d then map[] else RowsOf(rows, x)
  {
  }

  // ----- How the parts of the invariant are kept -----

  lemma DocsSet(
      parse: Data -> Parsed, docs: map<DocId, Document>, rows: map<RowId, Row>, uploaded: map<DocId, Data>,
      d: DocId, document: Document)
    requires DocsOk(parse, docs, rows, uploaded) && d in uploaded
    requires DocumentOk(parse, document, RowsOf(rows, d), d, uploaded[d])
    ensures DocsOk(parse, docs[d := document], rows, uploaded)
  {
    hide DocumentOk, RowsOf;
  }

  lemma DocsStored(
      parse: Data -> Parsed, docs: map<DocId, Document>, rows: map<RowId, Row>, uploaded: map<DocId, Data>,
      d: DocId, ids: seq<RowId>)
    requires DocsOk(parse, docs, rows, uploaded) && d in uploaded && parse(uploaded[d]).Chunks?
    requires |ids| == |parse(uploaded[d]).contents| && DistinctIds(ids) && forall r | r in ids :: r !in rows
    ensures var contents := parse(uploaded[d]).contents;
      DocsOk(
        parse, docs[d := Document(Ready, None, |contents|)], WithoutRows(rows, d) + NewRows(d, contents, ids), uploaded)
  {
    var contents := parse(uploaded[d]).contents;
    var added := NewRows(d, contents, ids);
    var all := WithoutRows(rows, d) + added;
    NewRowsComplete(d, contents, ids);
    assert DocumentOk(parse, Document(Ready, None, |contents|), added, d, uploaded[d]);
    hide DocumentOk, RowsOf, WithoutRows, NewRows;
    forall x | x in docs || x == d
      ensures RowsOf(all, x) == if x == d then added else RowsOf(rows, x)
    {
      StoredRows(rows, d, contents, ids, x);
    }
  }

  lemma DocsDeleted(
      parse: Data -> Parsed, docs: map<DocId, Document>, rows: map<RowId, Row>, uploaded: map<DocId, Data>, d: DocId)
    requires DocsOk(parse, docs, rows, uploaded)
    ensures DocsOk(parse, docs - {d}, WithoutRows(rows, d), uploaded)
  {
    hide DocumentOk, RowsOf, WithoutRows;
    forall x | x in docs - {d} ensures RowsOf(WithoutRows(rows, d), x) == RowsOf(rows, x) {
      WithoutRowsOf(rows, d, x);
    }
  }

  lemma NoRows(rows: map<RowId, Row>, docs: map<DocId, Document>, used: set<RowId>, d: DocId)
    requires RowsOk(rows, docs, used) && d !in docs
    ensures RowsOf(rows, d) == map[]
  {
  }

  lemma PendingIsOk(parse: Data -> Parsed, d: DocId, data: Data)
    ensures DocumentOk(parse, Document(Pending, None, 0), map[], d, data)
  {
  }

  lemma StatusIsOk(
      parse: Data -> Parsed, document: Document, rows: map<RowId, Row>, d: DocId, data: Data,
      status: Status, error: Option<string>)
    requires DocumentOk(parse, document, rows, d, data)
    requires status == Processing || (status == Failed && error.Some?)
    ensures DocumentOk(parse, Document(status, error, document.chunkCount), rows, d, data)
  {
  }

  lemma RowsStored(
      rows: map<RowId, Row>, docs: map<DocId, Document>, used: set<RowId>,
      d: DocId, document: Document, contents: seq<Content>, ids: seq<RowId>)
    requires RowsOk(rows, docs, used) && |ids| == |contents| && DistinctIds(ids)
    ensures RowsOk(WithoutRows(rows, d) + NewRows(d, contents, ids), docs[d := document], used + (set r | r in ids))
  {
    hide NewRows;
    NewRowsComplete(d, contents, ids);
    var added := NewRows(d, contents, ids);
    assert forall r | r in added :: added[r].doc == d && r in ids;
  }

  lemma RowsDeleted(rows: map<RowId, Row>, docs: map<DocId, Document>, used: set<RowId>, d: DocId)
    requires RowsOk(rows, docs, used)
    ensures RowsOk(WithoutRows(rows, d), docs - {d}, used)
  {
  }

  lemma RunningSet(
      parse: Data -> Parsed, running: map<WorkerId, Execution>, uploaded: map<DocId, Data>, w: WorkerId, x: Execution)
    requires RunningOk(parse, running, uploaded) && CarriedOk(parse, x, uploaded)
    ensures RunningOk(parse, running[w := x], uploaded)
  {
    hide CarriedOk;
  }

  lemma RunningLess(
      parse: Data -> Parsed, running: map<WorkerId, Execution>, uploaded: map<DocId, Data>, w: WorkerId)
    requires RunningOk(parse, running, uploaded)
    ensures RunningOk(parse, running - {w}, uploaded)
  {
    hide CarriedOk;
  }

  lemma CarriesNothing(parse: Data -> Parsed, x: Execution, uploaded: map<DocId, Data>)
    requires !x.at.Downloaded? && !x.at.Snapshot?
    ensures CarriedOk(parse, x, uploaded)
  {
  }

  // ----- Every step keeps the invariant -----

  lemma UploadedDocs(
      parse: Data -> Parsed, docs: map<DocId, Document>, rows: map<RowId, Row>, uploaded: map<DocId, Data>,
      d: DocId, data: Data)
    requires DocsOk(parse, docs, rows, uploaded) && d !in uploaded
    ensures DocsOk(parse, docs, rows, uploaded[d := data]) && d !in docs
  {
    hide DocumentOk, RowsOf;
  }

  lemma UploadedGraph(
      parse: Data -> Parsed, graph: map<DocId, map<RowId, Row>>, uploaded: map<DocId, Data>, d: DocId, data: Data)
    requires GraphOk(parse, graph, uploaded) && d !in uploaded
    ensures GraphOk(parse, graph, uploaded[d := data])
  {
    hide EmptyOrComplete;
  }

  lemma UploadedRunning(
      parse: Data -> Parsed, running: map<WorkerId, Execution>, uploaded: map<DocId, Data>, d: DocId, data: Data)
    requires RunningOk(parse, running, uploaded) && d !in uploaded
    ensures RunningOk(parse, running, uploaded[d := data])
  {
    hide EmptyOrComplete;
  }

  lemma UploadedFiles(
      files: map<DocId, Data>, creating: map<DocId, bool>, docs: map<DocId, Document>, uploaded: map<DocId, Data>,
      d: DocId, data: Data)
    requires FilesOk(files, uploaded) && CreatingOk(creating, docs, uploaded) && d !in docs
    ensures FilesOk(files[d := data], uploaded[d := data])
    ensures CreatingOk(creating[d := false], docs, uploaded[d := data])
  {
  }

  lemma UploadKeeps(parse: Data -> Parsed, s: State, d: DocId, data: Data)
    requires Invariant(parse, s)
    ensures Invariant(parse, OnUpload(s, d, data))
  {
    if d !in s.uploaded {
      UploadedDocs(parse, s.docs, s.rows, s.uploaded, d, data);
      UploadedGraph(parse, s.graph, s.uploaded, d, data);
      UploadedRunning(parse, s.running, s.uploaded, d, data);
      UploadedFiles(s.files, s.creating, s.docs, s.uploaded, d, data);
      hide DocsOk, CreatingOk, FilesOk, RowsOk, GraphOk, RunningOk;
    }
  }

  lemma CommitCreateKeeps(parse: Data -> Parsed, s: State, d: DocId)
    requires Invariant(parse, s)
    ensures Invariant(parse, OnCommitCreate(s, d))
  {
    if d in s.creating {
      NoRows(s.rows, s.docs, s.used, d);
      PendingIsOk(parse, d, s.uploaded[d]);
      hide DocumentOk, RowsOf, FilesOk, GraphOk, RunningOk;
      DocsSet(parse, s.docs, s.rows, s.uploaded, d, Document(Pending, None, 0));
      hide DocsOk;
    }
  }

  lemma CreatingKeeps(parse: Data -> Parsed, s: State, d: DocId)
    requires Invariant(parse, s)
    ensures Invariant(parse, OnPublishIngest(s, d)) && Invariant(parse, OnAbortCreate(s, d))
  {
    hide DocsOk, FilesOk, RowsOk, GraphOk, RunningOk;
  }

  lemma DeleteKeeps(parse: Data -> Parsed, s: State, d: DocId)
    requires Invariant(parse, s)
    ensures Invariant(parse, OnDeleteObject(s, d)) && Invariant(parse, OnDeleteDocument(s, d))
  {
    DocsDeleted(parse, s.docs, s.rows, s.uploaded, d);
    RowsDeleted(s.rows, s.docs, s.used, d);
    hide DocsOk, RowsOk, GraphOk, RunningOk, WithoutRows;
  }

  lemma DeliverKeeps(parse: Data -> Parsed, s: State, w: WorkerId, m: Message)
    requires Invariant(parse, s)
    ensures Invariant(parse, OnDeliver(s, w, m))
  {
    hide DocsOk, CreatingOk, FilesOk, RowsOk, GraphOk, RunningOk, CarriedOk;
    CarriesNothing(parse, Execution(m, Started), s.uploaded);
    RunningSet(parse, s.running, s.uploaded, w, Execution(m, Started));
  }

  // Ending an execution, and what it may put back into the queue.
  lemma EndKeeps(parse: Data -> Parsed, s: State, w: WorkerId)
    requires Invariant(parse, s)
    ensures Invariant(parse, Finish(s, w)) && Invariant(parse, OnCrash(s, w)) && Invariant(parse, OnRedeliver(s, w))
    ensures w in s.running ==> Invariant(parse, Retry(s, w))
  {
    hide DocsOk, CreatingOk, FilesOk, RowsOk, GraphOk, RunningOk;
    RunningLess(parse, s.running, s.uploaded, w);
  }

  lemma GotoKeeps(parse: Data -> Parsed, s: State, w: WorkerId, p: Point)
    requires Invariant(parse, s) && w in s.running
    requires CarriedOk(parse, Execution(s.running[w].message, p), s.uploaded)
    ensures Invariant(parse, Goto(s, w, p))
  {
    hide DocsOk, CreatingOk, FilesOk, RowsOk, GraphOk, RunningOk, CarriedOk;
    RunningSet(parse, s.running, s.uploaded, w, s.running[w].(at := p));
  }

  lemma LeaveKeeps(parse: Data -> Parsed, s: State, w: WorkerId, p: Point)
    requires Invariant(parse, s) && w in s.running && !p.Downloaded? && !p.Snapshot?
    ensures Invariant(parse, Goto(s, w, p))
  {
    hide Invariant, CarriedOk;
    CarriesNothing(parse, Execution(s.running[w].message, p), s.uploaded);
    GotoKeeps(parse, s, w, p);
  }

  lemma StatusKeeps(parse: Data -> Parsed, s: State, d: DocId, status: Status, error: Option<string>)
    requires Invariant(parse, s) && d in s.docs
    requires status == Processing || (status == Failed && error.Some?)
    ensures Invariant(parse, SetDocument(s, d, Document(status, error, s.docs[d].chunkCount)))
  {
    hide DocumentOk, RowsOf, FilesOk, GraphOk, RunningOk;
    StatusIsOk(parse, s.docs[d], RowsOf(s.rows, d), d, s.uploaded[d], status, error);
    DocsSet(parse, s.docs, s.rows, s.uploaded, d, Document(status, error, s.docs[d].chunkCount));
    hide DocsOk;
  }

  lemma StoredKeeps(parse: Data -> Parsed, s: State, d: DocId, ids: seq<RowId>)
    requires Invariant(parse, s) && d in s.docs && d in s.uploaded && parse(s.uploaded[d]).Chunks?
    requires |ids| == |parse(s.uploaded[d]).contents| && FreshIds(s, ids)
    ensures Invariant(parse, Stored(s, d, parse(s.uploaded[d]).contents, ids))
  {
    var contents := parse(s.uploaded[d]).contents;
    DocsStored(parse, s.docs, s.rows, s.uploaded, d, ids);
    RowsStored(s.rows, s.docs, s.used, d, Document(Ready, None, |contents|), contents, ids);
    hide DocsOk, FilesOk, RowsOk, GraphOk, RunningOk, WithoutRows, NewRows;
  }

  lemma KnownDocument(parse: Data -> Parsed, s: State, d: DocId)
    requires Invariant(parse, s)
    ensures d in s.docs ==> d in s.uploaded && DocumentOk(parse, s.docs[d], RowsOf(s.rows, d), d, s.uploaded[d])
    ensures d in s.files ==> d in s.uploaded && s.files[d] == s.uploaded[d]
  {
    hide DocumentOk, RowsOf;
  }

  lemma KnownExecution(parse: Data -> Parsed, s: State, w: WorkerId)
    requires Invariant(parse, s) && w in s.running
    ensures CarriedOk(parse, s.running[w], s.uploaded)
  {
    hide CarriedOk;
  }

  lemma MarkProcessingKeeps(parse: Data -> Parsed, s: State, w: WorkerId)
    requires Invariant(parse, s)
    ensures Invariant(parse, OnMarkProcessing(s, w))
  {
    hide Invariant, Retry;
    if At(s, w, Started) {
      var d := s.running[w].message.doc;
      if d in s.docs {
        StatusKeeps(parse, s, d, Processing, s.docs[d].error);
        LeaveKeeps(parse, SetDocument(s, d, s.docs[d].(status := Processing)), w, Loaded);
      } else {
        EndKeeps(parse, s, w);
      }
    }
  }

  lemma DownloadKeeps(parse: Data -> Parsed, s: State, w: WorkerId)
    requires Invariant(parse, s)
    ensures Invariant(parse, OnDownload(s, w))
  {
    hide Invariant;
    if At(s, w, Loaded) {
      var d := s.running[w].message.doc;
      if d in s.files {
        KnownDocument(parse, s, d);
        GotoKeeps(parse, s, w, Downloaded(s.files[d]));
      } else {
        LeaveKeeps(parse, s, w, Failing(false));
      }
    }
  }

  lemma StoreKeeps(parse: Data -> Parsed, s: State, w: WorkerId, ids: seq<RowId>)
    requires Invariant(parse, s)
    ensures Invariant(parse, OnStore(parse, s, w, ids))
  {
    if HasData(s, w) {
      var d := s.running[w].message.doc;
      var parsed := parse(s.running[w].at.data);
      KnownExecution(parse, s, w);
      hide Invariant, FreshIds, NewRows, WithoutRows;
      LeaveKeeps(parse, s, w, Failing(false));
      LeaveKeeps(parse, s, w, Failing(true));
      if d in s.docs && parsed.Chunks? && |ids| == |parsed.contents| && FreshIds(s, ids) {
        StoredKeeps(parse, s, d, ids);
        LeaveKeeps(parse, Stored(s, d, parsed.contents, ids), w, Committed);
      }
    }
  }

  lemma PublishBuildKeeps(parse: Data -> Parsed, s: State, w: WorkerId)
    requires Invariant(parse, s)
    ensures Invariant(parse, OnPublishBuild(s, w))
  {
    if At(s, w, Committed) {
      var t := s.(queue := s.queue + multiset{Build(s.running[w].message.doc, 0)});
      assert Invariant(parse, t) by { hide DocsOk, CreatingOk, FilesOk, RowsOk, GraphOk, RunningOk; }
      hide Invariant;
      LeaveKeeps(parse, t, w, Published);
    }
  }

  lemma MarkFailedKeeps(parse: Data -> Parsed, s: State, w: WorkerId, error: string, retried: bool)
    requires Invariant(parse, s)
    ensures Invariant(parse, OnMarkFailed(s, w, error, retried))
  {
    hide Invariant, Retry, Finish;
    if IsFailing(s, w) {
      var d := s.running[w].message.doc;
      EndKeeps(parse, s, w);
      if d in s.docs {
        StatusKeeps(parse, s, d, Failed, Some(Truncated(error)));
        EndKeeps(parse, SetDocument(s, d, s.docs[d].(status := Failed, error := Some(Truncated(error)))), w);
      }
    }
  }

  lemma ReadRowsKeeps(parse: Data -> Parsed, s: State, w: WorkerId)
    requires Invariant(parse, s)
    ensures Invariant(parse, OnReadRows(s, w))
  {
    hide Invariant, RowsOf;
    if w in s.running {
      var d := s.running[w].message.doc;
      EndKeeps(parse, s, w);
      if d in s.docs {
        KnownDocument(parse, s, d);
        GotoKeeps(parse, s, w, Snapshot(RowsOf(s.rows, d)));
      }
    }
  }

  lemma WriteGraphKeeps(parse: Data -> Parsed, s: State, w: WorkerId)
    requires Invariant(parse, s)
    ensures Invariant(parse, OnWriteGraph(s, w)) && Invariant(parse, OnWriteGraphFails(s, w))
  {
    if HasSnapshot(s, w) {
      KnownExecution(parse, s, w);
      EndKeeps(parse, s, w);
      hide EmptyOrComplete, DocsOk, CreatingOk, FilesOk, RowsOk, RunningOk, Retry;
    }
  }

  lemma ApiKeeps(parse: Data -> Parsed, s: State, e: Event)
    requires Invariant(parse, s)
    requires OfApi(e)
    ensures Invariant(parse, Apply(parse, s, e))
  {
    hide Invariant, OnUpload, OnCommitCreate, OnPublishIngest, OnAbortCreate, OnDeleteObject, OnDeleteDocument;
    match e
    case Upload(d, data) => UploadKeeps(parse, s, d, data);
    case CommitCreate(d) => CommitCreateKeeps(parse, s, d);
    case DeleteObject(d) => DeleteKeeps(parse, s, d);
    case DeleteDocument(d) => DeleteKeeps(parse, s, d);
    case PublishIngest(d) => CreatingKeeps(parse, s, d);
    case AbortCreate(d) => CreatingKeeps(parse, s, d);
  }

  lemma EndingKeeps(parse: Data -> Parsed, s: State, w: WorkerId, p: Point)
    requires Invariant(parse, s)
    ensures Invariant(parse, OnEndAt(s, w, p)) && Invariant(parse, OnFailAt(s, w, p))
    ensures Invariant(parse, OnStoreAborts(s, w)) && Invariant(parse, OnMarkFailedAborts(s, w))
    ensures Invariant(parse, OnBuildFails(s, w))
  {
    hide Invariant, Finish, Goto;
    EndKeeps(parse, s, w);
    if w in s.running {
      LeaveKeeps(parse, s, w, Failing(false));
    }
  }

  lemma BrokerAndGraphKeep(parse: Data -> Parsed, s: State, e: Event)
    requires Invariant(parse, s)
    requires OfBrokerOrGraph(e)
    ensures Invariant(parse, Apply(parse, s, e))
  {
    hide Invariant, OnDeliver, OnRedeliver, OnCrash, OnReadRows, OnWriteGraph, OnWriteGraphFails, OnBuildFails;
    match e
    case Deliver(w, m) => DeliverKeeps(parse, s, w, m);
    case Redeliver(w) => EndKeeps(parse, s, w);
    case Crash(w) => EndKeeps(parse, s, w);
    case ReadRows(w) => ReadRowsKeeps(parse, s, w);
    case WriteGraph(w) => WriteGraphKeeps(parse, s, w);
    case WriteGraphFails(w) => WriteGraphKeeps(parse, s, w);
    case BuildFails(w) => EndingKeeps(parse, s, w, Started);
  }

  lemma IngestionKeeps(parse: Data -> Parsed, s: State, e: Event)
    requires Invariant(parse, s) && !OfApi(e) && !OfBrokerOrGraph(e)
    ensures Invariant(parse, Apply(parse, s, e))
  {
    hide Invariant, OnMarkProcessing, OnDownload, OnStore, OnStoreAborts, OnPublishBuild, OnFailAt, OnEndAt,
      OnMarkFailed, OnMarkFailedAborts;
    match e
    case MarkProcessing(w) => MarkProcessingKeeps(parse, s, w);
    case MarkProcessingAborts(w) => EndingKeeps(parse, s, w, Started);
    case Download(w) => DownloadKeeps(parse, s, w);
    case DownloadFails(w) => EndingKeeps(parse, s, w, Loaded);
    case Store(w, ids) => StoreKeeps(parse, s, w, ids);
    case StoreAborts(w) => EndingKeeps(parse, s, w, Started);
    case PublishBuild(w) => PublishBuildKeeps(parse, s, w);
    case PublishBuildFails(w) => EndingKeeps(parse, s, w, Committed);
    case Notify(w) => EndingKeeps(parse, s, w, Published);
    case NotifyFails(w) => EndingKeeps(parse, s, w, Published);
    case MarkFailed(w, error, retried) => MarkFailedKeeps(parse, s, w, error, retried);
    case MarkFailedAborts(w) => EndingKeeps(parse, s, w, Started);
  }

  lemma {:induction false} StepKeepsInvariant(parse: Data -> Parsed, s: State, e: Event)
    requires Invariant(parse, s)
    ensures Invariant(parse, Apply(parse, s, e))
  {
    hide Invariant, Apply;
    if OfApi(e) {
      ApiKeeps(parse, s, e);
    } else if OfBrokerOrGraph(e) {
      BrokerAndGraphKeep(parse, s, e);
    } else {
      IngestionKeeps(parse, s, e);
    }
  }

  lemma {:induction false} RunKeepsInvariant(parse: Data -> Parsed, s: State, events: seq<Event>)
    requires Invariant(parse, s)
    ensures Invariant(parse, Run(parse, s, events))
    decreases |events|
  {
    hide Invariant, Apply;
    if events != [] {
      StepKeepsInvariant(parse, s, events[0]);
      RunKeepsInvariant(parse, Apply(parse, s, events[0]), events[1..]);
    }
  }

  // In every reachable state a document's committed chunk rows are none at all
  // or exactly the chunks of its file, numbered from 0; chunk_count is their
  // number; READY means all of them and no error; and what the graph holds of
  // a document is, likewise, nothing or all of its chunks.
  lemma ReachableStatesAreSound(parse: Data -> Parsed, events: seq<Event>, d: DocId)
    ensures var s := Run(parse, INITIAL, events);
      && (d in s.docs ==> d in s.uploaded && DocumentOk(parse, s.docs[d], RowsOf(s.rows, d), d, s.uploaded[d]))
      && (d !in s.docs ==> RowsOf(s.rows, d) == map[])
      && (d in s.graph ==> d in s.uploaded && EmptyOrComplete(parse, s.graph[d], d, s.uploaded[d]))
  {
    assert Invariant(parse, INITIAL);
    hide Apply, EmptyOrComplete, DocumentOk;
    RunKeepsInvariant(parse, INITIAL, events);
    var s := Run(parse, INITIAL, events);
    KnownDocument(parse, s, d);
    if d !in s.docs {
      NoRows(s.rows, s.docs, s.used, d);
    }
  }
}
