// The database transactions of an ingestion (app/ingestion/tasks.py) on mutable
// tables. Each leaves exactly the tables that the protocol's step leaves, in
// every state of the protocol with these tables and for every worker.

module IngestionTables {
  import opened Documents
  import opened Options
  import opened IngestionProtocol

  datatype Failure = DocumentGone | ParsingError | VectorCountMismatch

  class Tables {
    var docs: map<DocId, Document>
    var rows: map<RowId, Row>

    // These are the tables of a protocol state.
    ghost predicate Of(s: State)
      reads this
    {
      docs == s.docs && rows == s.rows
    }

    constructor ()
      ensures docs == map[] && rows == map[]
    {
      docs, rows := map[], map[];
    }

    // First transaction: false when the document is not there (yet, or any more).
    method MarkProcessing(d: DocId) returns (found: bool)
      modifies this`docs
      ensures found <==> d in old(docs)
      ensures forall s, w | old(Of(s)) && At(s, w, Started) && s.running[w].message.doc == d ::
        Of(OnMarkProcessing(s, w)) && (found <==> At(OnMarkProcessing(s, w), w, Loaded))
      ensures forall parse, uploaded | DocsOk(parse, old(docs), rows, uploaded) :: DocsOk(parse, docs, rows, uploaded)
    {
      found := d in docs;
      if found {
        docs := docs[d := docs[d].(status := Processing)];
      }
    }

    // session.add_all over the chunks paired with their vectors, as far as there are both.
    method AddChunks(d: DocId, chunks: seq<Content>, vectors: nat, ids: seq<RowId>)
      requires |ids| == |chunks|
      modifies this`rows
      ensures vectors == |chunks| ==> rows == old(rows) + NewRows(d, chunks, ids)
    {
      var i := 0;
      while i < |chunks| && i < vectors
        invariant 0 <= i <= |chunks| && i <= vectors
        invariant rows == old(rows) + NewRows(d, chunks[..i], ids[..i])
      {
        NewRowsStep(d, chunks, ids, i);
        rows := rows[ids[i] := Row(d, i, chunks[i])];
        i := i + 1;
      }
      assert chunks[..|chunks|] == chunks && ids[..|ids|] == ids;
    }

    // Second transaction: the chunks of the file replace those in the table.
    // Any failure rolls the transaction back.
    method RunIngestion(d: DocId, parsed: Parsed, embedded: nat, ids: seq<RowId>) returns (r: Result<nat, Failure>)
      requires parsed.Chunks? ==> |ids| == |parsed.contents|
      requires DistinctIds(ids) && forall i | i in ids :: i !in rows
      modifies this
      ensures r.Ok? <==> d in old(docs) && parsed.Chunks? && (parsed.contents == [] || embedded == |parsed.contents|)
      ensures forall parse: Data -> Parsed, s, w |
          && old(Of(s)) && HasData(s, w) && s.running[w].message.doc == d
          && parse(s.running[w].at.data) == parsed && FreshIds(s, ids) ::
        Of(if r == Err(VectorCountMismatch) then OnStoreAborts(s, w) else OnStore(parse, s, w, ids))
      ensures r.Ok? ==>
        && r.value == |parsed.contents|
        && docs == old(docs)[d := Document(Ready, None, |parsed.contents|)]
        && Complete(RowsOf(rows, d), d, parsed.contents)
        && forall x | x != d :: RowsOf(rows, x) == RowsOf(old(rows), x)
      ensures r.Err? ==> docs == old(docs) && rows == old(rows)
    {
      hide OnStore, OnStoreAborts, FreshIds;
      forall parse: Data -> Parsed, s, w |
          && HasData(s, w) && s.running[w].message.doc == d
          && parse(s.running[w].at.data) == parsed && FreshIds(s, ids)
        ensures TablesAfterStore(s, OnStore(parse, s, w, ids), d, parsed, ids)
        ensures OnStoreAborts(s, w).docs == s.docs && OnStoreAborts(s, w).rows == s.rows
      {
        StoreTables(parse, s, w, ids);
      }
      if d !in docs {
        return Err(DocumentGone);
      }
      if parsed.Unparsable? {
        return Err(ParsingError);
      }
      var chunks := parsed.contents;
      var vectors := if chunks == [] then 0 else embedded;
      var docsBefore, rowsBefore := docs, rows;
      ReplacedTables(rows, d, chunks, ids);
      rows := map r | r in rows && rows[r].doc != d :: rows[r];
      assert rows == WithoutRows(rowsBefore, d);
      hide Complete, NewRows, WithoutRows, RowsOf, DistinctIds;
      AddChunks(d, chunks, vectors, ids);
      if |chunks| != vectors {
        docs, rows := docsBefore, rowsBefore;
        return Err(VectorCountMismatch);
      }
      docs := docs[d := docs[d].(status := Ready, chunkCount := |chunks|, error := None)];
      return Ok(|chunks|);
    }

    // The transaction of _mark_failed.
    method MarkFailed(d: DocId, error: string)
      modifies this`docs
      ensures forall s, w, retried | old(Of(s)) && IsFailing(s, w) && s.running[w].message.doc == d ::
        Of(OnMarkFailed(s, w, error, retried))
      ensures forall parse, uploaded | DocsOk(parse, old(docs), rows, uploaded) :: DocsOk(parse, docs, rows, uploaded)
    {
      if d in docs {
        docs := docs[d := docs[d].(status := Failed, error := Some(Truncated(error)))];
      }
    }

    // The cascade of a deleted document.
    method Delete(d: DocId)
      modifies this
      ensures forall s | old(Of(s)) && d in s.docs && d !in s.files :: Of(OnDeleteDocument(s, d))
      ensures d !in docs && RowsOf(rows, d) == map[] && forall x | x != d :: RowsOf(rows, x) == RowsOf(old(rows), x)
    {
      hide RowsOf;
      forall x ensures RowsOf(WithoutRows(rows, d), x) == if x == d then map[] else RowsOf(rows, x) {
        WithoutRowsOf(rows, d, x);
      }
      assert rows == old(rows);
      docs := docs - {d};
      rows := map r | r in rows && rows[r].doc != d :: rows[r];
      assert rows == WithoutRows(old(rows), d);
    }
  }

  lemma NewRowsStep(d: DocId, contents: seq<Content>, ids: seq<RowId>, i: nat)
    requires |ids| == |contents| && i < |ids|
    ensures NewRows(d, contents[..i + 1], ids[..i + 1])
         == NewRows(d, contents[..i], ids[..i])[ids[i] := Row(d, i, contents[i])]
  {
    assert contents[..i + 1][..i] == contents[..i] && ids[..i + 1][..i] == ids[..i];
  }

  // The tables after the storing step of the protocol.
  ghost predicate TablesAfterStore(s: State, t: State, d: DocId, parsed: Parsed, ids: seq<RowId>)
    requires parsed.Chunks? ==> |ids| == |parsed.contents|
  {
    if d in s.docs && parsed.Chunks? then
      && t.docs == s.docs[d := Document(Ready, None, |parsed.contents|)]
      && t.rows == WithoutRows(s.rows, d) + NewRows(d, parsed.contents, ids)
    else t.docs == s.docs && t.rows == s.rows
  }

  lemma StoreTables(parse: Data -> Parsed, s: State, w: WorkerId, ids: seq<RowId>)
    requires HasData(s, w) && FreshIds(s, ids)
    requires var parsed := parse(s.running[w].at.data); parsed.Chunks? ==> |ids| == |parsed.contents|
    ensures TablesAfterStore(
      s, OnStore(parse, s, w, ids), s.running[w].message.doc, parse(s.running[w].at.data), ids)
    ensures OnStoreAborts(s, w).docs == s.docs && OnStoreAborts(s, w).rows == s.rows
  {
    hide FreshIds, NewRows, WithoutRows;
  }

  lemma ReplacedTables(rows: map<RowId, Row>, d: DocId, contents: seq<Content>, ids: seq<RowId>)
    requires |ids| == |contents| && DistinctIds(ids) && forall i | i in ids :: i !in rows
    ensures var all := WithoutRows(rows, d) + NewRows(d, contents, ids);
      Complete(RowsOf(all, d), d, contents) && forall x | x != d :: RowsOf(all, x) == RowsOf(rows, x)
  {
    NewRowsComplete(d, contents, ids);
    hide Complete, NewRows, WithoutRows, RowsOf;
    forall x ensures RowsOf(WithoutRows(rows, d) + NewRows(d, contents, ids), x)
                  == if x == d then NewRows(d, contents, ids) else RowsOf(rows, x)
    {
      StoredRows(rows, d, contents, ids, x);
    }
  }
}
