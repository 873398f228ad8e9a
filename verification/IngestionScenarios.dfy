// Runs of the ingestion protocol from the very start that show what can go
// wrong: a document whose task is lost, a READY document that is not READY any
// more, and a graph that keeps showing chunk rows that are gone.

module IngestionScenarios {
  import opened Documents
  import opened Options
  import opened IngestionProtocol
  import opened IngestionRuns
  import opened IngestionRepeats
  import opened IngestionGraph

  // ----- The task that arrives before the commit -----

  // The upload request before its commit, with these messages in the queue.
  function Uncommitted(d: DocId, data: Data, queue: multiset<Message>): State {
    INITIAL.(files := map[d := data], uploaded := map[d := data], creating := map[d := true], queue := queue)
  }

  function JustCreated(d: DocId, data: Data, queue: multiset<Message>): State {
    INITIAL.(
      files := map[d := data], uploaded := map[d := data], docs := map[d := Document(Pending, None, 0)], queue := queue)
  }

  function Request(d: DocId, data: Data): seq<Event> {
    [Upload(d, data), PublishIngest(d)]
  }

  lemma RequestRun(parse: Data -> Parsed, d: DocId, data: Data)
    ensures Run(parse, INITIAL, Request(d, data)) == Uncommitted(d, data, multiset{Ingest(d, 0)})
  {
    RunOfTwo(parse, INITIAL, Upload(d, data), PublishIngest(d));
    hide Run;
    var s := OnUpload(INITIAL, d, data);
    assert s == INITIAL.(files := map[d := data], uploaded := map[d := data], creating := map[d := false]);
    assert map[d := false][d := true] == map[d := true];
  }

  lemma CommitRun(parse: Data -> Parsed, d: DocId, data: Data, queue: multiset<Message>)
    ensures Run(parse, Uncommitted(d, data, queue), [CommitCreate(d)]) == JustCreated(d, data, queue)
  {
    RunOfOne(parse, Uncommitted(d, data, queue), CommitCreate(d));
    hide Run;
    assert map[d := true] - {d} == map[];
  }

  // A delivery that does not find the document asks for the next one, up to the limit.
  lemma EarlyDelivery(parse: Data -> Parsed, d: DocId, data: Data, k: nat)
    requires k <= INGEST_MAX_RETRIES
    ensures Run(parse, Uncommitted(d, data, multiset{Ingest(d, k)}), Take("w", Ingest(d, k)))
         == Uncommitted(d, data, if k < INGEST_MAX_RETRIES then multiset{Ingest(d, k + 1)} else multiset{})
  {
    var s, m := Uncommitted(d, data, multiset{Ingest(d, k)}), Ingest(d, k);
    RunOfTwo(parse, s, Deliver("w", m), MarkProcessing("w"));
    hide Run;
    var t := OnDeliver(s, "w", m);
    assert t.queue == multiset{} && t.running == map["w" := Execution(m, Started)];
    assert t.running - {"w"} == map[];
    assert multiset{} + multiset{Ingest(d, k + 1)} == multiset{Ingest(d, k + 1)};
  }

  // Deliveries number k and on.
  function EarlyDeliveries(d: DocId, k: nat): seq<Event>
    requires k <= INGEST_MAX_RETRIES
    decreases INGEST_MAX_RETRIES - k
  {
    Take("w", Ingest(d, k)) + if k < INGEST_MAX_RETRIES then EarlyDeliveries(d, k + 1) else []
  }

  lemma {:induction false} EarlyDeliveriesRun(parse: Data -> Parsed, d: DocId, data: Data, k: nat)
    requires k <= INGEST_MAX_RETRIES
    ensures Run(parse, Uncommitted(d, data, multiset{Ingest(d, k)}), EarlyDeliveries(d, k))
         == Uncommitted(d, data, multiset{})
    decreases INGEST_MAX_RETRIES - k
  {
    hide Run, Uncommitted, Take;
    EarlyDelivery(parse, d, data, k);
    var s := Uncommitted(d, data, multiset{Ingest(d, k)});
    if k < INGEST_MAX_RETRIES {
      RunOfMore(parse, s, Take("w", Ingest(d, k)), EarlyDeliveries(d, k + 1));
      EarlyDeliveriesRun(parse, d, data, k + 1);
    } else {
      assert Take("w", Ingest(d, k)) + [] == Take("w", Ingest(d, k));
    }
  }

  function LostTask(d: DocId, data: Data): seq<Event> {
    Request(d, data) + EarlyDeliveries(d, 0) + [CommitCreate(d)]
  }

  // When all deliveries come before the commit, the document stays PENDING for
  // good, although its file is there.
  lemma TaskCanBeLost(parse: Data -> Parsed, d: DocId, data: Data)
    ensures var s := Run(parse, INITIAL, LostTask(d, data));
      && d in s.docs && s.docs[d].status == Pending && d in s.files
      && Quiet(s, d) && StatusStays(parse, s, d)
  {
    hide Run, Request, EarlyDeliveries, Uncommitted, JustCreated, StatusStays, Quiet;
    RequestRun(parse, d, data);
    EarlyDeliveriesRun(parse, d, data, 0);
    CommitRun(parse, d, data, multiset{});
    RunOfMore(parse, INITIAL, Request(d, data), EarlyDeliveries(d, 0));
    RunOfMore(parse, INITIAL, Request(d, data) + EarlyDeliveries(d, 0), [CommitCreate(d)]);
    NothingLeft(d, data);
    StatusIsFinalIffQuiet(parse, LostTask(d, data), d);
  }

  lemma NothingLeft(d: DocId, data: Data)
    ensures var s := JustCreated(d, data, multiset{});
      d in s.docs && s.docs[d].status == Pending && d in s.files && Quiet(s, d)
  {
  }

  // ----- A message that is delivered twice -----

  // The document with the chunk rows of one ingestion.
  function Indexed(
      d: DocId, data: Data, contents: seq<Content>, ids: seq<RowId>, used: set<RowId>, queue: multiset<Message>,
      running: map<WorkerId, Execution>, graph: map<DocId, map<RowId, Row>>): State
    requires |ids| == |contents|
  {
    State(map[d := data], map[d := data], map[], map[d := Document(Ready, None, |contents|)],
      NewRows(d, contents, ids), used, queue, running, graph)
  }

  function Ids(ids: seq<RowId>): set<RowId> {
    set r | r in ids
  }

  // Two deliveries of the one message, which the broker allows.
  function Duplicate(m: Message): seq<Event> {
    [Deliver("w", m), Redeliver("w"), Crash("w")]
  }

  lemma RedeliveredAndCrashed(s: State, w: WorkerId)
    requires w in s.running
    ensures var m := s.running[w].message;
      OnCrash(OnRedeliver(s, w), w) == s.(queue := s.queue + multiset{m} + multiset{m}, running := s.running - {w})
  {
  }

  lemma DuplicateRun(parse: Data -> Parsed, d: DocId, data: Data)
    ensures var m := Ingest(d, 0);
      Run(parse, JustCreated(d, data, multiset{m}), Duplicate(m)) == JustCreated(d, data, multiset{m, m})
  {
    hide Run, OnDeliver, OnRedeliver, OnCrash;
    var m := Ingest(d, 0);
    var s := JustCreated(d, data, multiset{m});
    var t := OnDeliver(s, "w", m);
    RunOfThree(parse, s, Deliver("w", m), Redeliver("w"), Crash("w"));
    DeliverStep(s, "w", m);
    RedeliveredAndCrashed(t, "w");
    assert t.running - {"w"} == map[];
    assert multiset{m} - multiset{m} + multiset{m} + multiset{m} == multiset{m, m};
  }

  function Created(d: DocId, data: Data): seq<Event> {
    Request(d, data) + [CommitCreate(d)]
  }

  lemma CreatedRun(parse: Data -> Parsed, d: DocId, data: Data)
    ensures Run(parse, INITIAL, Created(d, data)) == JustCreated(d, data, multiset{Ingest(d, 0)})
  {
    hide Run, Request, Uncommitted, JustCreated;
    RequestRun(parse, d, data);
    CommitRun(parse, d, data, multiset{Ingest(d, 0)});
    RunOfMore(parse, INITIAL, Request(d, data), [CommitCreate(d)]);
  }

  function Ingestion(d: DocId, ids: seq<RowId>): seq<Event> {
    Fetch("w", Ingest(d, 0)) + Succeed("w", ids)
  }

  ghost predicate Suits(parse: Data -> Parsed, data: Data, contents: seq<Content>, ids: seq<RowId>) {
    parse(data) == Chunks(contents) && |ids| == |contents| && DistinctIds(ids)
  }

  lemma FirstIngestion(
      parse: Data -> Parsed, d: DocId, data: Data, contents: seq<Content>, ids: seq<RowId>)
    requires Suits(parse, data, contents, ids)
    ensures var m, b := Ingest(d, 0), Build(d, 0);
      Run(parse, JustCreated(d, data, multiset{m, m}), Ingestion(d, ids))
      == Indexed(d, data, contents, ids, Ids(ids), multiset{m, b}, map[], map[])
  {
    hide Run, Fetch, Succeed, NewRows, DistinctIds;
    var m := Ingest(d, 0);
    var s := JustCreated(d, data, multiset{m, m});
    assert FreshIds(s, ids);
    SuccessIsOneTransaction(parse, s, "w", m, ids);
    FirstRows(d, data, contents, ids, multiset{m, m});
    assert multiset{m, m} - multiset{m} + multiset{Build(d, 0)} == multiset{m, Build(d, 0)};
  }

  lemma FirstRows(d: DocId, data: Data, contents: seq<Content>, ids: seq<RowId>, queue: multiset<Message>)
    requires |ids| == |contents|
    ensures Stored(JustCreated(d, data, queue), d, contents, ids)
         == Indexed(d, data, contents, ids, Ids(ids), queue, map[], map[])
  {
    hide NewRows;
    assert WithoutRows(map[], d) + NewRows(d, contents, ids) == NewRows(d, contents, ids);
    assert {} + (set r | r in ids) == Ids(ids);
    assert map[d := Document(Pending, None, 0)][d := Document(Ready, None, |contents|)]
        == map[d := Document(Ready, None, |contents|)];
  }

  function IngestedOnce(d: DocId, data: Data, ids: seq<RowId>): seq<Event> {
    Created(d, data) + Duplicate(Ingest(d, 0)) + Ingestion(d, ids)
  }

  lemma IngestedOnceRun(parse: Data -> Parsed, d: DocId, data: Data, contents: seq<Content>, ids: seq<RowId>)
    requires Suits(parse, data, contents, ids)
    ensures var m, b := Ingest(d, 0), Build(d, 0);
      Run(parse, INITIAL, IngestedOnce(d, data, ids))
      == Indexed(d, data, contents, ids, Ids(ids), multiset{m, b}, map[], map[])
  {
    hide Run, Created, Duplicate, Ingestion, JustCreated, Indexed;
    CreatedRun(parse, d, data);
    DuplicateRun(parse, d, data);
    FirstIngestion(parse, d, data, contents, ids);
    RunOfMore(parse, INITIAL, Created(d, data), Duplicate(Ingest(d, 0)));
    RunOfMore(parse, INITIAL, Created(d, data) + Duplicate(Ingest(d, 0)), Ingestion(d, ids));
  }

  // A READY document, with all its chunks, that the second delivery takes back
  // to PROCESSING.
  lemma ReadyCanBeLost(parse: Data -> Parsed, d: DocId, data: Data, contents: seq<Content>, ids: seq<RowId>)
    requires Suits(parse, data, contents, ids)
    ensures var s := Run(parse, INITIAL, IngestedOnce(d, data, ids));
      var t := Run(parse, s, Take("w", Ingest(d, 0)));
      && d in s.docs && s.docs[d].status == Ready
      && d in t.docs && t.docs[d].status == Processing
  {
    IngestedOnceRun(parse, d, data, contents, ids);
    hide Run, IngestedOnce, Take, NewRows;
    DeliveryUndoesReady(parse, Run(parse, INITIAL, IngestedOnce(d, data, ids)), Ingest(d, 0), "w");
  }

  // An ingestion up to the point where its chunks are committed.
  function IngestedAndStored(d: DocId, data: Data, ids: seq<RowId>): seq<Event> {
    Created(d, data) + Fetch("w", Ingest(d, 0)) + [Store("w", ids)]
  }

  lemma StoredRun(parse: Data -> Parsed, d: DocId, data: Data, contents: seq<Content>, ids: seq<RowId>)
    requires Suits(parse, data, contents, ids)
    ensures var s := Run(parse, INITIAL, IngestedAndStored(d, data, ids));
      && d in s.docs && s.docs[d].status == Ready
      && At(s, "w", Committed) && s.running["w"].message == Ingest(d, 0)
  {
    hide Run, Created, Fetch, NewRows, DistinctIds;
    CreatedRun(parse, d, data);
    var s := JustCreated(d, data, multiset{Ingest(d, 0)});
    var t := Fetched(s, "w", Ingest(d, 0));
    FetchRun(parse, s, "w", Ingest(d, 0));
    RunOfMore(parse, INITIAL, Created(d, data), Fetch("w", Ingest(d, 0)));
    RunOfMore(parse, INITIAL, Created(d, data) + Fetch("w", Ingest(d, 0)), [Store("w", ids)]);
    RunOfOne(parse, t, Store("w", ids));
    assert FreshIds(t, ids);
    StoreStep(parse, t, "w", ids);
  }

  // READY is lost, too, when the graph task cannot be published.
  lemma PublishFailureHappens(
      parse: Data -> Parsed, d: DocId, data: Data, contents: seq<Content>, ids: seq<RowId>, error: string)
    requires Suits(parse, data, contents, ids)
    ensures var s := Run(parse, INITIAL, IngestedAndStored(d, data, ids));
      var t := Run(parse, s, [PublishBuildFails("w"), MarkFailed("w", error, false)]);
      && d in s.docs && s.docs[d].status == Ready
      && d in t.docs && t.docs[d].status == Failed
  {
    hide Run, IngestedAndStored, AllChunks;
    StoredRun(parse, d, data, contents, ids);
    PublishFailureUndoesReady(parse, IngestedAndStored(d, data, ids), "w", error, false);
  }

  // ----- A slow graph task -----

  function Read(g: WorkerId, d: DocId): seq<Event> {
    [Deliver(g, Build(d, 0)), ReadRows(g)]
  }

  lemma RowsOfNew(d: DocId, contents: seq<Content>, ids: seq<RowId>)
    requires |ids| == |contents| && DistinctIds(ids)
    ensures RowsOf(NewRows(d, contents, ids), d) == NewRows(d, contents, ids)
    ensures WithoutRows(NewRows(d, contents, ids), d) == map[]
    ensures NewRows(d, contents, ids).Keys == Ids(ids)
  {
    hide NewRows;
    NewRowsComplete(d, contents, ids);
  }

  lemma ReadStep(s: State, g: WorkerId, d: DocId)
    requires g in s.running && s.running[g] == Execution(Build(d, 0), Started) && d in s.docs
    ensures OnReadRows(s, g) == s.(running := s.running[g := Execution(Build(d, 0), Snapshot(RowsOf(s.rows, d)))])
  {
    hide RowsOf;
  }

  lemma ReadSteps(s: State, g: WorkerId, d: DocId)
    requires Build(d, 0) in s.queue && g !in s.running && d in s.docs
    ensures OnReadRows(OnDeliver(s, g, Build(d, 0)), g)
         == s.(queue := s.queue - multiset{Build(d, 0)},
               running := s.running[g := Execution(Build(d, 0), Snapshot(RowsOf(s.rows, d)))])
  {
    hide RowsOf, OnDeliver, OnReadRows;
    var b, x := Build(d, 0), Execution(Build(d, 0), Snapshot(RowsOf(s.rows, d)));
    DeliverStep(s, g, b);
    ReadStep(OnDeliver(s, g, b), g, d);
    assert s.running[g := Execution(b, Started)][g := x] == s.running[g := x];
  }

  lemma ReadIs(parse: Data -> Parsed, s: State, t: State, g: WorkerId, b: Message)
    ensures Apply(parse, s, Deliver(g, b)) == OnDeliver(s, g, b)
    ensures Apply(parse, t, ReadRows(g)) == OnReadRows(t, g)
  {
    hide OnDeliver, OnReadRows;
  }

  lemma ReadRun(
      parse: Data -> Parsed, g: WorkerId, d: DocId, data: Data, contents: seq<Content>, ids: seq<RowId>,
      used: set<RowId>, rest: multiset<Message>, running: map<WorkerId, Execution>, graph: map<DocId, map<RowId, Row>>)
    requires |ids| == |contents| && DistinctIds(ids) && g !in running
    ensures var b := Build(d, 0);
      Run(parse, Indexed(d, data, contents, ids, used, rest + multiset{b}, running, graph), Read(g, d))
      == Indexed(d, data, contents, ids, used, rest,
           running[g := Execution(b, Snapshot(NewRows(d, contents, ids)))], graph)
  {
    hide Run, Apply, NewRows, RowsOf, OnDeliver, OnReadRows, DistinctIds;
    var b := Build(d, 0);
    var s := Indexed(d, data, contents, ids, used, rest + multiset{b}, running, graph);
    RunOfTwo(parse, s, Deliver(g, b), ReadRows(g));
    ReadIs(parse, s, OnDeliver(s, g, b), g, b);
    RowsOfNew(d, contents, ids);
    ReadSteps(s, g, d);
    assert rest + multiset{b} - multiset{b} == rest;
  }

  lemma WriteRun(
      parse: Data -> Parsed, g: WorkerId, d: DocId, data: Data, contents: seq<Content>, ids: seq<RowId>,
      used: set<RowId>, queue: multiset<Message>, running: map<WorkerId, Execution>, graph: map<DocId, map<RowId, Row>>,
      rows: map<RowId, Row>)
    requires |ids| == |contents| && g !in running
    ensures var b := Build(d, 0);
      Run(parse, Indexed(d, data, contents, ids, used, queue, running[g := Execution(b, Snapshot(rows))], graph),
        [WriteGraph(g)])
      == Indexed(d, data, contents, ids, used, queue, running, graph[d := rows])
  {
    hide Run, NewRows;
    var x := Execution(Build(d, 0), Snapshot(rows));
    var s := Indexed(d, data, contents, ids, used, queue, running[g := x], graph);
    RunOfOne(parse, s, WriteGraph(g));
    WriteStep(s, g);
    assert running[g := x] - {g} == running;
  }

  lemma SecondIngestion(
      parse: Data -> Parsed, d: DocId, data: Data, contents: seq<Content>, ids: seq<RowId>, others: seq<RowId>,
      running: map<WorkerId, Execution>)
    requires Suits(parse, data, contents, ids) && Suits(parse, data, contents, others)
    requires Ids(ids) !! Ids(others) && "w" !in running
    ensures Run(
        parse, Indexed(d, data, contents, ids, Ids(ids), multiset{Ingest(d, 0)}, running, map[]), Ingestion(d, others))
         == Indexed(d, data, contents, others, Ids(ids) + Ids(others), multiset{Build(d, 0)}, running, map[])
  {
    hide Run, Fetch, Succeed, NewRows, DistinctIds, RowsOf, WithoutRows;
    var m := Ingest(d, 0);
    var s := Indexed(d, data, contents, ids, Ids(ids), multiset{m}, running, map[]);
    RowsOfNew(d, contents, ids);
    assert forall r | r in others :: r in Ids(others) && r !in Ids(ids);
    assert FreshIds(s, others);
    SuccessIsOneTransaction(parse, s, "w", m, others);
    assert multiset{m} - multiset{m} + multiset{Build(d, 0)} == multiset{Build(d, 0)};
    assert map[] + NewRows(d, contents, others) == NewRows(d, contents, others);
    assert map[d := Document(Ready, None, |contents|)][d := Document(Ready, None, |contents|)]
        == map[d := Document(Ready, None, |contents|)];
    assert Ids(ids) + (set r | r in others) == Ids(ids) + Ids(others);
  }

  function SlowGraphTask(d: DocId, data: Data, ids: seq<RowId>, others: seq<RowId>): seq<Event> {
    IngestedOnce(d, data, ids) + Read("g", d) + Ingestion(d, others)
    + Read("h", d) + [WriteGraph("h")] + [WriteGraph("g")]
  }

  // A graph task that read the rows before a repeated ingestion, and writes
  // last, leaves a READY document of whose current rows the graph shows none,
  // with no task left that would repair this.
  lemma SlowGraphTaskLeavesStaleRows(
      parse: Data -> Parsed, d: DocId, data: Data, contents: seq<Content>, ids: seq<RowId>, others: seq<RowId>)
    requires Suits(parse, data, contents, ids) && Suits(parse, data, contents, others) && Ids(ids) !! Ids(others)
    ensures var s := Run(parse, INITIAL, SlowGraphTask(d, data, ids, others));
      && d in s.docs && s.docs[d].status == Ready
      && RowsOf(s.rows, d).Keys == Ids(others)
      && d in s.graph && s.graph[d].Keys == Ids(ids)
      && s.queue == multiset{} && s.running == map[]
  {
    hide Run, IngestedOnce, Ingestion, Read, NewRows, Indexed, DistinctIds, RowsOf, WithoutRows;
    var m, b := Ingest(d, 0), Build(d, 0);
    var first, second := NewRows(d, contents, ids), NewRows(d, contents, others);
    var used := Ids(ids) + Ids(others);
    var slow := map["g" := Execution(b, Snapshot(first))];
    var e1 := IngestedOnce(d, data, ids);
    var e2 := e1 + Read("g", d);
    var e3 := e2 + Ingestion(d, others);
    var e4 := e3 + Read("h", d);
    var e5 := e4 + [WriteGraph("h")];
    IngestedOnceRun(parse, d, data, contents, ids);
    assert multiset{m, b} == multiset{m} + multiset{b} && multiset{b} == multiset{} + multiset{b};
    ReadRun(parse, "g", d, data, contents, ids, Ids(ids), multiset{m}, map[], map[]);
    RunOfMore(parse, INITIAL, e1, Read("g", d));
    assert map[]["g" := Execution(b, Snapshot(first))] == slow;
    SecondIngestion(parse, d, data, contents, ids, others, slow);
    RunOfMore(parse, INITIAL, e2, Ingestion(d, others));
    ReadRun(parse, "h", d, data, contents, others, used, multiset{}, slow, map[]);
    RunOfMore(parse, INITIAL, e3, Read("h", d));
    WriteRun(parse, "h", d, data, contents, others, used, multiset{}, slow, map[], second);
    RunOfMore(parse, INITIAL, e4, [WriteGraph("h")]);
    WriteRun(parse, "g", d, data, contents, others, used, multiset{}, map[], map[d := second], first);
    RunOfMore(parse, INITIAL, e5, [WriteGraph("g")]);
    RowsOfNew(d, contents, ids);
    RowsOfNew(d, contents, others);
    StaleState(d, data, contents, others, used, map[d := second][d := first]);
  }

  lemma StaleState(
      d: DocId, data: Data, contents: seq<Content>, others: seq<RowId>, used: set<RowId>,
      graph: map<DocId, map<RowId, Row>>)
    requires |others| == |contents|
    ensures var s := Indexed(d, data, contents, others, used, multiset{}, map[], graph);
      && d in s.docs && s.docs[d].status == Ready && s.rows == NewRows(d, contents, others)
      && s.graph == graph && s.queue == multiset{} && s.running == map[]
  {
    hide NewRows;
  }
}
