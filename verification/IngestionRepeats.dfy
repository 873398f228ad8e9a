// What a successful ingestion amounts to, and what repeating one changes, in
// all runs of the ingestion protocol.

module IngestionRepeats {
  import opened Documents
  import opened Options
  import opened IngestionProtocol
  import opened IngestionRuns

  // ----- A set of chunk rows, without its row ids -----

  ghost function Numbered(rows: map<RowId, Row>): set<(nat, Content)> {
    set r | r in rows :: (rows[r].index, rows[r].content)
  }

  // No two rows have the same number, and all numbers are below n.
  ghost predicate NumberedBelow(rows: map<RowId, Row>, n: nat) {
    && (forall r | r in rows :: rows[r].index < n)
    && (forall r, q | r in rows && q in rows && r != q :: rows[r].index != rows[q].index)
  }

  lemma {:induction false} AtMost(rows: map<RowId, Row>, n: nat)
    requires NumberedBelow(rows, n)
    ensures |rows| <= n
    decreases n
  {
    if n > 0 {
      if r :| r in rows && rows[r].index == n - 1 {
        AtMost(rows - {r}, n - 1);
      } else {
        AtMost(rows, n - 1);
      }
    } else {
      assert rows.Keys == {};
    }
  }

  lemma {:induction false} EveryNumberIsThere(rows: map<RowId, Row>, n: nat, i: nat)
    requires NumberedBelow(rows, n) && |rows| == n && i < n
    ensures exists r :: r in rows && rows[r].index == i
    decreases n
  {
    if r :| r in rows && rows[r].index == n - 1 {
      if i < n - 1 {
        EveryNumberIsThere(rows - {r}, n - 1, i);
        var q :| q in rows - {r} && (rows - {r})[q].index == i;
        assert q in rows && rows[q].index == i;
      }
    } else {
      AtMost(rows, n - 1);
    }
  }

  // Rows that are complete hold every chunk, under its number, exactly once.
  lemma CompleteIsExact(rows: map<RowId, Row>, d: DocId, contents: seq<Content>)
    requires Complete(rows, d, contents)
    ensures forall i | 0 <= i < |contents| ::
      exists r :: r in rows && rows[r] == Row(d, i, contents[i]) && forall q | q in rows && rows[q].index == i :: q == r
    ensures forall p :: p in Numbered(rows) <==> p.0 < |contents| && p.1 == contents[p.0]
  {
    forall i | 0 <= i < |contents|
      ensures exists r ::
        r in rows && rows[r] == Row(d, i, contents[i]) && forall q | q in rows && rows[q].index == i :: q == r
    {
      EveryNumberIsThere(rows, |contents|, i);
      var r :| r in rows && rows[r].index == i;
      assert rows[r] == Row(d, i, contents[i]);
    }
    forall p: (nat, Content) | p.0 < |contents| && p.1 == contents[p.0] ensures p in Numbered(rows) {
      var r :| r in rows && rows[r] == Row(d, p.0, contents[p.0]);
      assert p == (rows[r].index, rows[r].content);
    }
  }

  lemma CompleteHasSameNumbers(rows: map<RowId, Row>, others: map<RowId, Row>, d: DocId, contents: seq<Content>)
    requires Complete(rows, d, contents) && Complete(others, d, contents)
    ensures Numbered(rows) == Numbered(others)
  {
    CompleteIsExact(rows, d, contents);
    CompleteIsExact(others, d, contents);
    hide Complete, Numbered;
  }

  // ----- A whole successful execution -----

  function Fetch(w: WorkerId, m: Message): seq<Event> {
    [Deliver(w, m), MarkProcessing(w), Download(w)]
  }

  function Succeed(w: WorkerId, ids: seq<RowId>): seq<Event> {
    [Store(w, ids), PublishBuild(w), Notify(w)]
  }

  ghost predicate CanIngest(parse: Data -> Parsed, s: State, w: WorkerId, m: Message, ids: seq<RowId>) {
    && m.Ingest? && m in s.queue && w !in s.running
    && m.doc in s.docs && m.doc in s.files
    && parse(s.files[m.doc]).Chunks? && |ids| == |parse(s.files[m.doc]).contents| && FreshIds(s, ids)
  }

  // What is downloaded, before it is stored.
  function Fetched(s: State, w: WorkerId, m: Message): State
    requires m.doc in s.docs && m.doc in s.files
  {
    s.(queue := s.queue - multiset{m},
       running := s.running[w := Execution(m, Downloaded(s.files[m.doc]))],
       docs := s.docs[m.doc := s.docs[m.doc].(status := Processing)])
  }

  lemma DownloadStep(s: State, w: WorkerId)
    requires At(s, w, Loaded) && s.running[w].message.doc in s.files
    ensures OnDownload(s, w)
         == s.(running := s.running[w := s.running[w].(at := Downloaded(s.files[s.running[w].message.doc]))])
  {
  }

  lemma FetchRun(parse: Data -> Parsed, s: State, w: WorkerId, m: Message)
    requires m.Ingest? && m in s.queue && w !in s.running && m.doc in s.docs && m.doc in s.files
    ensures Run(parse, s, Fetch(w, m)) == Fetched(s, w, m)
  {
    RunOfThree(parse, s, Deliver(w, m), MarkProcessing(w), Download(w));
    hide Run, OnDeliver, OnMarkProcessing, OnDownload;
    DeliverStep(s, w, m);
    var a := OnDeliver(s, w, m);
    MarkStep(a, w);
    DownloadStep(OnMarkProcessing(a, w), w);
    assert s.running[w := Execution(m, Started)][w := Execution(m, Loaded)]
             [w := Execution(m, Downloaded(s.files[m.doc]))]
        == s.running[w := Execution(m, Downloaded(s.files[m.doc]))];
  }

  lemma StoreStep(parse: Data -> Parsed, s: State, w: WorkerId, ids: seq<RowId>)
    requires HasData(s, w) && s.running[w].message.doc in s.docs
    requires var p := parse(s.running[w].at.data); p.Chunks? && |ids| == |p.contents| && FreshIds(s, ids)
    ensures OnStore(parse, s, w, ids)
         == Goto(Stored(s, s.running[w].message.doc, parse(s.running[w].at.data).contents, ids), w, Committed)
  {
    hide FreshIds, Stored, Goto;
  }

  lemma PublishStep(s: State, w: WorkerId)
    requires At(s, w, Committed)
    ensures OnPublishBuild(s, w)
         == s.(queue := s.queue + multiset{Build(s.running[w].message.doc, 0)},
               running := s.running[w := s.running[w].(at := Published)])
  {
  }

  // From the stored chunks on, nothing else can go wrong for the database.
  lemma PublishAndEnd(s: State, w: WorkerId)
    requires At(s, w, Committed)
    ensures OnEndAt(OnPublishBuild(s, w), w, Published)
         == s.(queue := s.queue + multiset{Build(s.running[w].message.doc, 0)}, running := s.running - {w})
  {
    PublishStep(s, w);
    hide OnPublishBuild;
    assert s.running[w := s.running[w].(at := Published)] - {w} == s.running - {w};
  }

  lemma StoredThenEnded(s: State, w: WorkerId, d: DocId, contents: seq<Content>, ids: seq<RowId>)
    requires w in s.running && s.running[w].message.Ingest? && s.running[w].message.doc == d && |ids| == |contents|
    ensures OnEndAt(OnPublishBuild(Goto(Stored(s, d, contents, ids), w, Committed), w), w, Published)
         == Stored(s, d, contents, ids).(queue := s.queue + multiset{Build(d, 0)}, running := s.running - {w})
  {
    hide NewRows, WithoutRows, OnPublishBuild, OnEndAt;
    var t := Goto(Stored(s, d, contents, ids), w, Committed);
    PublishAndEnd(t, w);
    assert s.running[w := s.running[w].(at := Committed)] - {w} == s.running - {w};
  }

  lemma SucceedSteps(parse: Data -> Parsed, s: State, w: WorkerId, ids: seq<RowId>)
    ensures Run(parse, s, Succeed(w, ids)) == OnEndAt(OnPublishBuild(OnStore(parse, s, w, ids), w), w, Published)
  {
    RunOfThree(parse, s, Store(w, ids), PublishBuild(w), Notify(w));
    hide Run, OnStore, OnPublishBuild, OnEndAt;
  }

  lemma SucceedRun(parse: Data -> Parsed, s: State, w: WorkerId, d: DocId, ids: seq<RowId>)
    requires HasData(s, w) && s.running[w].message.doc == d && d in s.docs
    requires var p := parse(s.running[w].at.data); p.Chunks? && |ids| == |p.contents| && FreshIds(s, ids)
    ensures Run(parse, s, Succeed(w, ids))
         == Stored(s, d, parse(s.running[w].at.data).contents, ids)
            .(queue := s.queue + multiset{Build(d, 0)}, running := s.running - {w})
  {
    SucceedSteps(parse, s, w, ids);
    StoreStep(parse, s, w, ids);
    hide Run, OnStore, OnPublishBuild, OnEndAt, FreshIds, Stored, Goto;
    StoredThenEnded(s, w, d, parse(s.running[w].at.data).contents, ids);
  }

  // A delivery that meets no failure amounts to one transaction that replaces
  // the chunk rows, plus a graph task in place of the ingestion task.
  lemma {:induction false} SuccessIsOneTransaction(
      parse: Data -> Parsed, s: State, w: WorkerId, m: Message, ids: seq<RowId>)
    requires CanIngest(parse, s, w, m, ids)
    ensures Run(parse, s, Fetch(w, m) + Succeed(w, ids))
         == Stored(s, m.doc, parse(s.files[m.doc]).contents, ids)
            .(queue := s.queue - multiset{m} + multiset{Build(m.doc, 0)})
  {
    RunOfMore(parse, s, Fetch(w, m), Succeed(w, ids));
    FetchRun(parse, s, w, m);
    var t := Fetched(s, w, m);
    assert FreshIds(t, ids);
    hide Run, FreshIds, Fetch, Succeed, NewRows, WithoutRows;
    SucceedRun(parse, t, w, m.doc, ids);
    StoredFetched(s, w, m, parse(s.files[m.doc]).contents, ids);
  }

  lemma StoredFetched(s: State, w: WorkerId, m: Message, contents: seq<Content>, ids: seq<RowId>)
    requires m.doc in s.docs && m.doc in s.files && w !in s.running && |ids| == |contents|
    ensures var t := Fetched(s, w, m);
      var queue := s.queue - multiset{m} + multiset{Build(m.doc, 0)};
      Stored(t, m.doc, contents, ids).(queue := queue, running := t.running - {w})
      == Stored(s, m.doc, contents, ids).(queue := queue)
  {
    hide NewRows, WithoutRows;
    var t := Fetched(s, w, m);
    assert t.running - {w} == s.running;
    assert t.docs[m.doc := Document(Ready, None, |ids|)] == s.docs[m.doc := Document(Ready, None, |ids|)];
  }

  // For any document x.
  ghost predicate OnlyRowIdsChanged(s: State, t: State, d: DocId, ids: seq<RowId>, x: DocId) {
    && t.docs == s.docs
    && Numbered(RowsOf(t.rows, x)) == Numbered(RowsOf(s.rows, x))
    && (x != d ==> RowsOf(t.rows, x) == RowsOf(s.rows, x))
    && RowsOf(t.rows, d).Keys == (set r | r in ids)
    && t.files == s.files && t.creating == s.creating && t.graph == s.graph && t.running == s.running
  }

  lemma StoredAgain(s: State, d: DocId, contents: seq<Content>, ids: seq<RowId>, queue: multiset<Message>, x: DocId)
    requires d in s.docs && s.docs[d] == Document(Ready, None, |contents|) && Complete(RowsOf(s.rows, d), d, contents)
    requires |ids| == |contents| && DistinctIds(ids) && forall r | r in ids :: r !in s.rows
    ensures OnlyRowIdsChanged(s, Stored(s, d, contents, ids).(queue := queue), d, ids, x)
  {
    ReplacedRows(s.rows, d, contents, ids, x);
    ReplacedRows(s.rows, d, contents, ids, d);
    hide NewRows, WithoutRows, RowsOf, Numbered, Complete, DistinctIds;
    assert s.docs[d := s.docs[d]] == s.docs;
  }

  lemma RepeatFrom(parse: Data -> Parsed, s: State, w: WorkerId, m: Message, ids: seq<RowId>, x: DocId)
    requires Invariant(parse, s) && CanIngest(parse, s, w, m, ids) && s.docs[m.doc].status == Ready
    ensures OnlyRowIdsChanged(s, Run(parse, s, Fetch(w, m) + Succeed(w, ids)), m.doc, ids, x)
  {
    var d := m.doc;
    SuccessIsOneTransaction(parse, s, w, m, ids);
    KnownDocument(parse, s, d);
    FreshMeans(s, ids);
    hide Run, Fetch, Succeed, Invariant, RowsOf, FreshIds, DocumentOk, OnlyRowIdsChanged, Complete, Stored, DistinctIds;
    ReadyMeansAll(parse, s.docs[d], RowsOf(s.rows, d), d, s.uploaded[d]);
    StoredAgain(s, d, parse(s.files[d]).contents, ids, s.queue - multiset{m} + multiset{Build(d, 0)}, x);
  }

  // In every reachable state, ingesting a READY document once more changes
  // nothing but the ids of its chunk rows (and hands its place in the queue to
  // a graph task).
  lemma {:induction false} RepeatChangesOnlyRowIds(
      parse: Data -> Parsed, events: seq<Event>, w: WorkerId, m: Message, ids: seq<RowId>, x: DocId)
    ensures
      var s := Run(parse, INITIAL, events);
      CanIngest(parse, s, w, m, ids) && s.docs[m.doc].status == Ready ==>
        OnlyRowIdsChanged(s, Run(parse, s, Fetch(w, m) + Succeed(w, ids)), m.doc, ids, x)
  {
    var s := Reached(parse, events);
    hide Run, Fetch, Succeed, Invariant, FreshIds, OnlyRowIdsChanged;
    if CanIngest(parse, s, w, m, ids) && s.docs[m.doc].status == Ready {
      RepeatFrom(parse, s, w, m, ids, x);
    }
  }

  lemma FreshMeans(s: State, ids: seq<RowId>)
    requires FreshIds(s, ids)
    ensures DistinctIds(ids) && forall r | r in ids :: r !in s.rows
  {
  }

  lemma ReplacedRows(rows: map<RowId, Row>, d: DocId, contents: seq<Content>, ids: seq<RowId>, x: DocId)
    requires Complete(RowsOf(rows, d), d, contents)
    requires |ids| == |contents| && DistinctIds(ids) && forall r | r in ids :: r !in rows
    ensures var all := WithoutRows(rows, d) + NewRows(d, contents, ids);
      && Numbered(RowsOf(all, x)) == Numbered(RowsOf(rows, x))
      && (x != d ==> RowsOf(all, x) == RowsOf(rows, x))
      && (x == d ==> RowsOf(all, x).Keys == (set r | r in ids))
  {
    NewRowsComplete(d, contents, ids);
    StoredRows(rows, d, contents, ids, x);
    hide NewRows, WithoutRows, RowsOf, Complete, Numbered;
    CompleteHasSameNumbers(RowsOf(rows, d), NewRows(d, contents, ids), d, contents);
  }

  lemma ReadyMeansAll(parse: Data -> Parsed, document: Document, rows: map<RowId, Row>, d: DocId, data: Data)
    requires DocumentOk(parse, document, rows, d, data) && document.status == Ready
    ensures parse(data).Chunks? && Complete(rows, d, parse(data).contents)
    ensures document == Document(Ready, None, |parse(data).contents|)
  {
  }
}
