# ComplianceHub: verified model

ComplianceHub answers compliance questions over uploaded documents. This project
models the path from a document to an answer in Dafny 4.11 and proves what each
part guarantees, for all inputs and all runs. `dafny verify dfyconfig.toml`
checks everything.

| files | component |
|---|---|
| Texts, TextCuts, Chunking, SlidingWindow, Conservation, DocumentOrder, OrderCounterexample, GreedyPacking, SentencePacking, Provenance | `app/ingestion/chunking.py` |
| Sections, MarkdownLines, PdfLevels | `app/ingestion/parsing.py` |
| Pipeline | parsing and chunking end to end |
| Ranking, Multiples, Rrf, HybridSearch | `app/retrieval/service.py` |
| Extraction, EntityGraph, GraphSearch, GraphService, GraphHistory | `app/graph/extraction.py`, `app/graph/service.py` |
| IngestionProtocol, IngestionRetries, IngestionRuns, IngestionRepeats, IngestionGraph, IngestionFreshness, IngestionScenarios, IngestionTables | `app/ingestion/tasks.py`, `app/documents/service.py`, `app/graph/tasks.py` |
| AveragePrecision, Cosine | `app/evaluation/metrics.py` |
| Luhn | `app/privacy/masking.py` |
| Crag | `app/rag/agent.py`, `app/rag/router.py` |
| Options, Documents | shared datatypes |

## How the parts are modelled

- A text is a sequence of characters that each carry the source position they
  were copied from. That is what "each character ends up in some chunk" is about;
  `Provenance` shows that the positions have no influence on the result.
- Loops of the source are methods with loops, proved against a recursive
  function; objects that the source updates (`_SectionBuilder`, the graph store,
  the database tables) are classes. Theorems are about the functions and about
  the abstract state that the classes keep.
- `IngestionProtocol` is a state machine: object store, database, queue, running
  executions and graph. Each `tenant_session` block is one step, with another step
  for its rollback, which the unique constraint on document and chunk index
  (`alembic/versions/0002_documents_chunks.py:98`) justifies for transactions that
  race. That constraint says nothing of the document row, which is assumed to be
  read and written atomically too. Workers crash, the broker delivers again while
  a worker still runs, and documents are deleted at any time. A run is any
  sequence of events.
- Scores, weights and similarities are exact reals. A square root is any
  non-negative number with the right square.
- The replies of language models, embedder, reranker, web search and database
  queries are arbitrary inputs, as are fresh UUIDs as long as they are fresh.

## Where the code differs from its documentation

- `app/documents/service.py:59-64` speaks of a crash between COMMIT and publish
  that loses the task. The code publishes before the commit, so the task can
  arrive first; after its retries are used up it is lost, and the document stays
  PENDING (`IngestionScenarios.TaskCanBeLost`).
- `app/ingestion/tasks.py:79-80` says that the graph never affects the document
  status. A failure to publish the graph task is caught by the handler at
  `app/ingestion/tasks.py:93-94`, which marks a committed READY document FAILED
  (`IngestionScenarios.PublishFailureHappens`). So READY is final only under the
  condition of `IngestionRuns.StatusIsFinalIffQuiet`.
- `app/graph/service.py:38-40` promises that re-ingestion converges and leaves no
  stale chunks in the graph. It does not when graph tasks overtake each other
  (`IngestionScenarios.SlowGraphTaskLeavesStaleRows`); when the graph stays
  current is `IngestionFreshness.GraphStaysCurrentIff`.
- `app/evaluation/metrics.py:39-40` says that a metric must not inflate itself
  when the judge under-answers. The ratios do not; average precision can
  (`AveragePrecision.MissingVerdictsCanRaisePrecision`), and
  `AveragePrecision.MissingVerdictsRaisePrecisionIff` tells when it may have.
- `app/rag/agent.py:8` says that the second round grades the new chunks. It also
  grades chunks again that the first round rejected (`Crag.RejectedChunkCanComeBack`).
- `app/rag/agent.py:138` raises IndexError for a reply of quotation marks only
  (`Crag.RewriteRaisesIffOnlyQuotes`), although a failed rewriting is meant to be
  survived.
- `app/ingestion/chunking.py:98-105` emits the windows of a long sentence before
  the text that precedes it (`OrderCounterexample.SomeTextIsReordered`); exactly
  when this happens is `DocumentOrder.OrderKeptIffTidy`.

## Model

| member | source | states |
|---|---|---|
| Chunking.SplitLongParagraph | app/ingestion/chunking.py:93-110 | the loop over the sentences of an oversized paragraph, as TextCuts.SentencesAreTheCut cuts them, computes the recursive packing that the theorems below are about |
| Chunking.SplitText | app/ingestion/chunking.py:61-90 | the paragraph loop, with its three exits, computes the recursive packing of the paragraphs |
| Chunking.ChunkSections | app/ingestion/chunking.py:30-51 | all sections in order, each piece once, with consecutive indexes, breadcrumb and page; missing sizes default as configured |
| Chunking.BreadcrumbConcat | app/ingestion/chunking.py:41 | a breadcrumb is the titles in order with ' > ' between each two and nothing around them |
| TextCuts.SplitIsTheCut | app/ingestion/chunking.py:65-67 | splitting at blank lines, at line boundaries or at sentence ends gives the one and only way to write a text as fields and gaps in which every gap is a maximal run of two or more newlines, one line boundary, or a maximal run of whitespace after one of . ! ?, and no field holds what would be such a gap |
| TextCuts.SentencesAreTheCut | app/ingestion/chunking.py:94 | the sentences of a paragraph are that one cut: every sentence but the last ends in . ! or ?, none holds one of these directly before whitespace, and sentences and gaps make up the paragraph |
| TextCuts.ParagraphsAreTheCut | app/ingestion/chunking.py:65-67 | the paragraphs are what lies between runs of two or more newlines, stripped and without the blank ones; when exactly one is left, they are instead the lines that are not blank, as they are |
| SentencePacking.PiecesAreSentences | app/ingestion/chunking.py:93-110 | the exact layout of the pieces of any paragraph that is not empty: each is the next few sentences, or what the windows leave of them, with one space between each two, stripped if there are several, and the next one would not have fitted; the windows of a sentence come before the piece that is open when it is read |
| SentencePacking.PiecesAreWholeSentences | app/ingestion/chunking.py:93-110 | when no sentence is oversized the pieces are just these groups of whole sentences |
| SentencePacking.FewestPieces | app/ingestion/chunking.py:93-110 | apart from the windows no other order-preserving division of the sentences into pieces of at most max_chars has fewer pieces, for every paragraph that is not empty and every overlap |
| SlidingWindow.WindowsClosedForm | app/ingestion/chunking.py:97-101 | window i starts at i * step, there are ceil((n - max) / step) of them, and the remainder starts at count * step; for every overlap, also one that does not fit |
| SlidingWindow.WindowsShareOverlap | app/ingestion/chunking.py:97-101 | with overlap < max consecutive windows share exactly overlap characters, and the remainder is longer than the overlap |
| SlidingWindow.WindowsCutSentence | app/ingestion/chunking.py:97-101 | without overlap the windows and the remainder are the sentence, in order |
| Conservation.PiecesSized | app/ingestion/chunking.py:61-110 | no piece is empty and none is longer than max_chars, for every text and overlap; the empty text is its own only piece |
| Conservation.PiecesCoverText | app/ingestion/chunking.py:61-110 | every non-whitespace source position is in some piece, and the pieces hold no others, for every text, size and overlap |
| DocumentOrder.PiecesIncreasing | app/ingestion/chunking.py:61-110 | inside a piece the source positions strictly increase, whatever the overlap |
| DocumentOrder.PiecesOnce | app/ingestion/chunking.py:61-110 | with overlap 0 each non-whitespace character appears exactly as often as in the text |
| DocumentOrder.OrderKeptIffTidy | app/ingestion/chunking.py:93-110 | with overlap 0 the pieces read one after the other are the text without whitespace if and only if no sentence but the first of an oversized paragraph exceeds max_chars |
| OrderCounterexample.SomeTextIsReordered | app/ingestion/chunking.py:98-105 | for every max_chars some text is cut into pieces that are not in document order |
| GreedyPacking.GreedyIsOptimal | app/ingestion/chunking.py:69-90 | with overlap 0 and no oversized paragraph the pieces are an order-preserving grouping of the paragraphs, each group joined by newlines, and no such grouping within max_chars has fewer groups |
| GreedyPacking.TextPiecesOptimal | app/ingestion/chunking.py:61-90 | the same for a whole text and the paragraphs it is cut into |
| GreedyPacking.PiecesContinue | app/ingestion/chunking.py:79-87 | the paragraph that closes a piece starts the next one, after the overlap tail of the closed piece, or alone exactly when the merge would exceed max_chars; the paragraphs before it give exactly the pieces so far |
| Provenance.PiecesDependOnCharactersOnly | app/ingestion/chunking.py:61-110 | texts with the same characters give pieces with the same characters: the source positions that the model adds have no influence |
| Sections.SectionBuilder.Heading | app/ingestion/parsing.py:53-58 | a heading leaves on the stack exactly the headings that still enclose what follows, with strictly increasing levels, after the pending section is out |
| Sections.SectionBuilder.Body | app/ingestion/parsing.py:60-63 | a body line joins the pending lines and the page is that of the first of them |
| Sections.SectionBuilder.Flush | app/ingestion/parsing.py:65-75 | the pending lines become a section under the enclosing headings unless they are blank |
| Sections.SectionBuilder.Build | app/ingestion/parsing.py:77-79 | the sections are those of the declarative view of the whole history of calls |
| Sections.ChainOfHeading | app/ingestion/parsing.py:53-58 | a past heading encloses exactly when every later heading is strictly deeper; adding one keeps the strictly shallower ones |
| Sections.ChainIsDeeper | app/ingestion/parsing.py:53-58 | the enclosing headings have strictly increasing levels, whatever headings came |
| Sections.JoinLinesConcat | app/ingestion/parsing.py:66 | the text of a section is its lines in order with a newline between each two |
| Sections.ParseMarkdown | app/ingestion/parsing.py:176-184 | the line loop yields the sections of the heading and body events of the lines; which events these are is in MarkdownLines |
| MarkdownLines.HeadingLine | app/ingestion/parsing.py:173-181 | a line of one to six hashes, some whitespace and a title is a heading of that level with that title, without the whitespace around it |
| MarkdownLines.HashedLine | app/ingestion/parsing.py:173-181 | so is every line with one to six hashes and whitespace in front, whatever comes after |
| MarkdownLines.OtherLine | app/ingestion/parsing.py:182-183 | any other line, also one with seven hashes or none after which whitespace comes, is body text without its trailing whitespace; a blank line is nothing |
| MarkdownLines.SectionUnderTwoHeadings | app/ingestion/parsing.py:176-184 | the section under headings of n and then m hashes has both titles at the end of its path if and only if m > n, otherwise the second one only, after those of the earlier headings that are above both |
| PdfLevels.MostCommonWins | app/ingestion/parsing.py:119 | no size is more frequent than the body size, and of equally frequent ones it is the first seen |
| PdfLevels.LevelIsRank | app/ingestion/parsing.py:121-124 | the level of a heading size is its rank among the heading sizes, up to the fourth |
| PdfLevels.LevelsFollowSize | app/ingestion/parsing.py:121-124 | larger type never gets a deeper level |
| PdfLevels.PdfLineIs | app/ingestion/parsing.py:121-136 | a line is a heading exactly when it is more than half a point larger than body text, at most three sizes of the document are larger and it has fewer than 200 characters; its level is one more than the number of larger sizes; any other line is body text of its page |
| PdfLevels.ParsePdf | app/ingestion/parsing.py:116-136 | an error exactly when there is no text, otherwise the sections of the classified lines |
| Pipeline.EveryCharacterUnderItsHeadings | app/ingestion/parsing.py:53-79 | every non-whitespace character of every body line ends up in a chunk whose breadcrumb is the chain of headings enclosing that line |
| Pipeline.NoChunkMixesSections | app/ingestion/chunking.py:39-51 | each chunk holds characters of one maximal run of body lines only, with the breadcrumb and page of that run, its index in the list and 1 to max_chars characters |
| Pipeline.SectionsKeepInk | app/ingestion/parsing.py:53-79 | sections and pending lines together are the body lines, in order, without whitespace |
| Pipeline.DocumentConserved | app/ingestion/chunking.py:30-51 | without overlap the chunks of a document hold each of its body characters exactly as often as the document does |
| Rrf.RrfFuse | app/retrieval/service.py:112-123 | the nested loops over a dict compute the fused ranking |
| Rrf.FusedMeaning | app/retrieval/service.py:118-123 | one item precedes another if and only if its sum of 1/(k + rank) is larger, or equal and it was seen first |
| Rrf.FusedMembers | app/retrieval/service.py:118-123 | the output is the duplicate-free union of the rankings |
| Rrf.TotalIsSymmetric | app/retrieval/service.py:118-122 | scores do not depend on the order of the rankings |
| Rrf.DominanceIsKept | app/retrieval/service.py:118-123 | an item ahead of another in every ranking that holds the latter precedes it |
| Rrf.ConsensusWins | app/retrieval/service.py:112-123 | m + 1 or more rankings beat m or fewer, whatever the positions, if m * (L - 1) < k + 1 |
| Rrf.ThresholdIsTight | app/retrieval/service.py:112-123 | beyond that bound there are rankings in which fewer retrievers win |
| Rrf.ConsensusThreshold | app/retrieval/service.py:112-123 | agreement always beats position if and only if m * (L - 1) < k + 1 |
| Rrf.ConfiguredConsensus | app/core/config.py:57-65 | with three sources of at most 20 candidates and k = 60 the fused order, and any cut of it, respects the number of agreeing sources |
| Ranking.SortedBefore | app/retrieval/service.py:123 | a stable descending sort puts one item before another exactly when it scores higher, or equal and came first |
| HybridSearch.Search | app/retrieval/service.py:138-180 | an error exactly when the reranker returns another number of scores, otherwise the best top_k candidates and nothing else: distinct, READY, type-matching chunks among the first ten fused ids, by score and then fused order, with no better candidate omitted, whatever ids the graph supplied; with at most ten ids in all and top_k of ten or more every READY, matching chunk that any source found, the graph included, is returned |
| HybridSearch.CandidatesFacts | app/retrieval/service.py:182-198 | the reranked candidates are exactly the READY chunks of a requested type among the first ten fused ids, in fused order |
| HybridSearch.GraphIdsAreFused | app/retrieval/service.py:156-166 | when the graph returns these ids, a row is reranked exactly when it is READY, of a requested type and among the first ten of the fusion of the vector ids, the full-text ids and these ids with k = 60 |
| HybridSearch.PassageIsWhatWasEmbedded | app/retrieval/service.py:201-205 | the reranker reads the same breadcrumb and text that the chunk was embedded with |
| HybridSearch.TopK | app/retrieval/service.py:172-180 | sorting and cutting returns the candidates that no omitted one outranks by reranker score, or by fused order at equal score, in that order |
| HybridSearch.BestIsUnique | app/retrieval/service.py:172-180 | there is only one list of best candidates |
| HybridSearch.GraphFailureIsEmptyRanking | app/retrieval/service.py:157-162 | a search whose graph raises answers as one whose graph finds nothing, or is disabled |
| Extraction.NormalizeIsWords | app/graph/extraction.py:38-40 | a norm is the lower-cased words of the name, joined by single spaces, for any lower-casing |
| Extraction.SameNormIffSameWords | app/graph/extraction.py:38-40 | two names are one entity exactly when they have the same words up to case, for any lower-casing that works word by word |
| Extraction.NormalizeIsIdempotent | app/graph/extraction.py:38-40 | a norm is its own norm, for any such lower-casing |
| Extraction.DedupeEntities | app/graph/extraction.py:153-161 | the loop with a set of seen norms keeps the first entity of each norm |
| Extraction.DedupeFacts | app/graph/extraction.py:153-161 | one entity per norm and every norm present |
| Extraction.DedupeKeepsFirst | app/graph/extraction.py:153-161 | what is kept of a list starts with what is kept of any prefix of it: first occurrence wins |
| Extraction.ExtractComposite | app/graph/extraction.py:146-150 | the extractors' results in order, deduplicated together: the result starts with the deduplicated result of the first extractor, and every entity in it was found by some extractor |
| Extraction.EarlierExtractorWins | app/graph/extraction.py:146-161 | when two extractors find the same norm, the entity of the later one is not returned, unless an earlier one found the very same |
| EntityGraph.KeyIsInjective | app/graph/service.py:64-74 | the tenant and norm key identifies tenant and norm |
| EntityGraph.DeleteAgrees | app/graph/service.py:89-96 | the delete statement removes exactly the chunks and edges of that document |
| EntityGraph.RebuiltAgrees | app/graph/service.py:89-115 | a rebuild turns a graph that agrees with the last builds into one that agrees with them after this document is replaced |
| GraphService.GraphStore.RebuildDocument | app/graph/service.py:50-87 | the store agrees with the last builds afterwards, and the returned count is the number of mention rows |
| GraphService.GraphStore.Search | app/graph/service.py:142-156 | the best chunks by (query entities mentioned) + weight * (other entities mentioned that co-occur with one), computed from the last builds alone, at most limit |
| GraphHistory.HistoryAgrees | app/graph/service.py:50-115 | after any history of rebuilds the graph agrees with the last build of each document |
| GraphHistory.LastBuildWins | app/graph/service.py:50-115 | which build of a document is the last one, for every history |
| GraphHistory.OnlyLastBuildsCount | app/graph/service.py:118-156 | histories with the same last builds answer every query alike: left-over entity nodes never count |
| GraphSearch.QueriesCountEvidence | app/graph/service.py:118-137 | the two queries return a row for exactly the chunks with evidence, with the exact numbers of entities |
| GraphSearch.MentionsStayInTenant | app/graph/service.py:97-115 | every MENTIONS edge joins a chunk and an entity of one tenant and comes from a build of that tenant |
| GraphSearch.NeighboursStayInTenant | app/graph/service.py:129-137 | the neighbour that the expansion query does not restrict to a tenant is always one of the tenant's own entities |
| GraphSearch.MentionCountIsEdgeCount | app/graph/service.py:66-87 | the returned count is the number of distinct MENTIONS edges of the build, because extraction deduplicates by the norm that makes the key |
| IngestionProtocol.StepKeepsInvariant | app/ingestion/tasks.py:58-104 | every step of every worker, the broker and the API keeps the invariant of documents, rows, files, graph and what executions carry; which failures are retried is in IngestionRetries |
| IngestionProtocol.ReachableStatesAreSound | app/ingestion/tasks.py:33-55 | in every run chunk rows are none or exactly the chunker's output numbered from 0, chunk_count is their number, READY means all of them and no error, and a document that is gone has no rows |
| IngestionProtocol.NewRowsComplete | app/ingestion/tasks.py:41-51 | the inserted rows are one per chunk, with the chunk's number and content |
| IngestionRetries.UnparsableIsNeverRetried | app/ingestion/tasks.py:87-92 | in every state, a worker with a file that cannot be parsed ends with the document FAILED and its error cut to 2000 characters; the queue and everything else stay as they are |
| IngestionRetries.TransientFailureIsRetried | app/ingestion/tasks.py:93-96 | every other failure (download, storing, publishing) also marks the document FAILED and puts exactly one message with one more retry into the queue if there were fewer than five and the message can be published, and none otherwise |
| IngestionRetries.UnparsableIsTriedOnce | app/ingestion/tasks.py:58-96 | from delivery to end: an unparsable file uses up its message in one attempt, whatever its number of retries |
| IngestionRetries.TaskIsTriedSixTimes | app/ingestion/tasks.py:58-96 | a task with r retries can fail 6 - r more times: after fewer failing attempts in a row the next message is queued, after the last none is, and the document is FAILED |
| IngestionRetries.EarlyAttemptIsRetried | app/ingestion/tasks.py:65-69 | an attempt that does not find the document changes no table and asks for one more attempt up to the fifth retry |
| IngestionRetries.FailedBuildIsRetried | app/graph/tasks.py:71-73 | a graph build whose write fails is asked for again exactly if it had fewer than three retries |
| IngestionRetries.RetriesAreBounded | app/ingestion/tasks.py:58 | in no run does a queued or running task carry more than five retries, or three for a graph build |
| IngestionRuns.CompletenessIsNeverLost | app/ingestion/tasks.py:33-104 | once all chunks are committed they stay complete until the document is deleted, whatever fails, retries or repeats |
| IngestionRuns.DeletionIsFinal | app/documents/service.py:80-84 | a deleted document never comes back and has no rows, in every continuation |
| IngestionRuns.StatusIsFinalIffQuiet | app/ingestion/tasks.py:58-104 | in every reachable state a document keeps its status until deletion, whatever happens, if and only if no task message for it is queued and no ingestion of it is running: this is when READY is final and when PENDING is for good |
| IngestionRuns.QuietDocumentsAreStuck | app/ingestion/tasks.py:58-73 | with neither, the whole document row and the chunk rows stay as they are until deletion |
| IngestionRuns.DeliveryUndoesReady | app/ingestion/tasks.py:63-71 | delivering one more message makes the document PROCESSING, whatever its status was |
| IngestionScenarios.TaskCanBeLost | app/ingestion/tasks.py:63-70 | a run from the start in which all six deliveries come before the commit: the document is PENDING for good although its file is there |
| IngestionScenarios.ReadyCanBeLost | app/ingestion/tasks.py:63-71 | a run from the start in which a second delivery of the one message takes a READY document back to PROCESSING |
| IngestionScenarios.PublishFailureHappens | app/ingestion/tasks.py:80-94 | a run from the start in which a READY document becomes FAILED because the graph task cannot be published |
| IngestionGraph.PublishFailureUndoesReady | app/ingestion/tasks.py:80-94 | in every reachable state, a failure to publish the graph task leaves a document FAILED that has all its chunks |
| IngestionRepeats.CompleteIsExact | app/ingestion/tasks.py:41-51 | complete rows hold each chunk under its number exactly once and nothing else |
| IngestionRepeats.SuccessIsOneTransaction | app/ingestion/tasks.py:58-89 | a delivery without failures amounts to one transaction that replaces the chunk rows, with a graph task in place of the ingestion task |
| IngestionRepeats.RepeatChangesOnlyRowIds | app/ingestion/tasks.py:13-16 | in every reachable state, ingesting a READY document again changes nothing but the ids of its chunk rows |
| IngestionGraph.GraphHoldsWholeDocuments | app/graph/tasks.py:37-70 | in every run, whatever the graph holds of a document is all chunks of its file, never a part |
| IngestionScenarios.SlowGraphTaskLeavesStaleRows | app/graph/tasks.py:37-70 | a run from the start that ends with a READY document of whose current rows the graph names none, and with no task left that would repair it: a graph task read before a repeated ingestion and wrote last |
| IngestionFreshness.GraphStaysCurrentIff | app/graph/service.py:38-40 | in every reachable state the graph holds the current rows of a document in all continuations, until its deletion, if and only if it does so now, no running graph task has read other rows, and the rows cannot be replaced any more (no ingestion of it queued or running, or its file gone and no ingestion holding the data, or no chunks to store) |
| IngestionTables.Tables.RunIngestion | app/ingestion/tasks.py:33-55 | the transaction leaves the tables of the protocol step that stores, in every state with these tables: the rows of this document are complete and those of others untouched; any failure, also a wrong number of vectors, leaves the tables as they were |
| IngestionTables.Tables.MarkFailed | app/ingestion/tasks.py:99-104 | the transaction leaves the tables of the protocol step that marks a failure, for every worker in every state with these tables, and keeps the document invariant |
| IngestionTables.Tables.MarkProcessing | app/ingestion/tasks.py:63-71 | the transaction leaves the tables of the protocol step that starts an ingestion, reports the document missing exactly when that step retries, and keeps the document invariant |
| AveragePrecision.ContextPrecision | app/evaluation/metrics.py:139-172 | the accumulating loop computes average precision; None without contexts or verdicts, 0 without relevant ones |
| AveragePrecision.PrecisionBounds | app/evaluation/metrics.py:160-172 | the score is in [0, 1], and 1 exactly when some item is relevant and no irrelevant item precedes a relevant one |
| AveragePrecision.MovingAheadRaises | app/evaluation/metrics.py:160-172 | moving a relevant item ahead of an irrelevant one strictly raises the score |
| AveragePrecision.WorstRanking | app/evaluation/metrics.py:160-172 | for a given number of relevant items the score is least exactly when they all come last |
| AveragePrecision.MissingVerdictsNeverRaiseRatio | app/evaluation/metrics.py:39-42 | a ratio metric never rises when the judge under-answers, and stays only if no missing verdict was true |
| AveragePrecision.RatioOfOneMore | app/evaluation/metrics.py:90 | the share of true verdicts: each further verdict counts as one more, and by 1 exactly when it is true; it is 1 exactly when all are true |
| AveragePrecision.MissingVerdictsCanRaisePrecision | app/evaluation/metrics.py:39-42 | average precision does rise for one concrete ranking when the judge under-answers |
| AveragePrecision.MissingVerdictsRaisePrecisionIff | app/evaluation/metrics.py:39-42 | from the verdicts given and the number of contexts: some completion of them would score lower if and only if something was found relevant and one more relevant context, in the last place, would have a precision below the present score |
| AveragePrecision.Bools | app/evaluation/metrics.py:35-42 | one verdict per item; what the judge did not answer is false |
| Cosine.CauchySchwarz | app/evaluation/metrics.py:101-104 | the square of the dot product is at most the product of the squared norms |
| Cosine.CosineBounds | app/evaluation/metrics.py:101-104 | similarity is in [-1, 1] for all vectors of equal length, also with a zero norm |
| Cosine.CosineIsOneIffParallel | app/evaluation/metrics.py:101-104 | it is 1 if and only if one vector is a positive multiple of the other |
| Cosine.CosineIsMinusOneIffOpposite | app/evaluation/metrics.py:101-104 | it is -1 if and only if one vector is a negative multiple of the other |
| Cosine.LawOfCosines | app/evaluation/metrics.py:101-104 | it is the number for which the law of cosines holds: the squared distance of the vectors is the sum of the squared norms less twice the product of the norms and the similarity |
| Cosine.RelevancyOfOneMore | app/evaluation/metrics.py:122-127 | answer relevancy is the mean: the similarity itself for one question, and (n + 1) * new = n * old + similarity for each further one |
| Cosine.AnswerRelevancyBounds | app/evaluation/metrics.py:122-127 | so mean answer relevancy is in [-1, 1], and None exactly without generated questions |
| Luhn.LuhnValid | app/privacy/masking.py:36-45 | the loop over the reversed digits decides the sum of Annex B of ISO/IEC 7812-1, which adds up the digits of each double where the loop subtracts 9 |
| Luhn.SumIsFromRight | app/privacy/masking.py:36-45 | that sum, place by place from the right: every second digit d counts 2d if d < 5 and 2d - 9 otherwise, the others as they are |
| Luhn.ZerosAreValid | app/privacy/masking.py:36-45 | a number of zeros has the sum 0 and is valid, however long it is |
| Luhn.SubstitutionIsCaught | app/privacy/masking.py:36-45 | every single-digit substitution of a valid number is rejected |
| Luhn.SwapIsCaughtUnless09 | app/privacy/masking.py:36-45 | swapping two unequal adjacent digits keeps a number valid if and only if they are 0 and 9 |
| Luhn.CheckDigitIsUnique | app/privacy/masking.py:36-45 | each payload has exactly one valid check digit: what the places of the payload, with the last one doubled, lack to a multiple of ten |
| Luhn.DigitsOfConcat | app/privacy/masking.py:59 | the digits of a candidate are its characters in order without spaces and hyphens |
| Luhn.Card | app/privacy/masking.py:58-62 | a candidate is masked exactly when it has 13 to 19 digits and a valid sum, and is left alone otherwise, for the digits of any script |
| Luhn.MistypedCardIsNotMasked | app/privacy/masking.py:58-62 | a masked candidate with one digit mistyped is not masked, however it is spaced |
| Crag.Ask | app/rag/agent.py:70-101 | both error exits; web results are used exactly when both rounds leave too few chunks, and then no chunk is cut; the chunks are the first of the relevant ones; for every n citation n and context block n name the same source, the block holds its whole text, masked for a chunk, and the snippet the first 300 characters unmasked; low confidence exactly without citations |
| Crag.GradeMembers | app/rag/agent.py:105-125 | a chunk is dropped exactly when the grading call answered false for it; failed and missing verdicts let it pass |
| Crag.GradeKeepsOrder | app/rag/agent.py:125 | grading keeps the order of the retriever |
| Crag.RelevantInOrder | app/rag/agent.py:75-84 | relevant chunks of one round keep the order of that round, those of the first round come before those of the second |
| Crag.ChunksAreDistinctSurvivorsFirst | app/rag/agent.py:78-92 | the chunks are distinct, at most top_k, and start with all survivors of the first round |
| Crag.RelevantMembers | app/rag/agent.py:75-84 | exactly which chunks count as relevant after both rounds |
| Crag.RejectedChunkCanComeBack | app/rag/agent.py:81-84 | for any settings and question an answer can rest on a single chunk that the first round rejected |
| Crag.EachChunkIsCitedOnce | app/rag/router.py:40-66 | every chunk of an answer is cited under exactly one number |
| Crag.RewriteRaisesIffOnlyQuotes | app/rag/agent.py:127-139 | rewriting raises if and only if the reply is nothing but quotation marks with white space around them |
| Crag.RewriteTakesFirstLine | app/rag/agent.py:138-139 | the new query is the first line of what is inside the quotation marks of the reply, stripped, unless nothing is on it or it is the question again; it is computed for every reply |
| Crag.ContextBlocks | app/rag/agent.py:147-155 | block n + 1 is the n-th chunk, or past the chunks the web result in its place |

## Left out

- Extraction.Normalize: the graph modules use plain ASCII lower-casing, one of those that the theorems about norms allow; nothing they prove depends on which it is.
- Luhn.Card: takes a candidate as the card pattern matches it; the search for candidates by regular expression is not modelled.
- Rrf.RrfFuse: k is a non-negative number; a negative k could divide by zero.
- GraphService.GraphStore.RebuildDocument: assumes that tenant ids hold no bar and that no two documents share a chunk id, since both are UUIDs.
- IngestionProtocol.ReachableStatesAreSound: assumes that a transaction reads and writes the document row atomically. The session writes changed columns only, so when the row was loaded without an error and a duplicate delivery commits a failure before this transaction does, READY is committed with that error.
- IngestionProtocol.StepKeepsInvariant: retry delays are not modelled; a retried message may be delivered at any time.
- IngestionGraph.GraphHoldsWholeDocuments: a graph build writes in one step; its statements are in EntityGraph.
- Crag.Ask: the masking and lower-casing of strings are arbitrary functions, and blocks and citations are records, not rendered text.
- Chunking.ChunkSections: sizes are non-negative numbers; a negative overlap or size from the configuration is not modelled.
- Sections.ParseMarkdown: starts from the lines of the decoded file; decoding of bytes is not modelled.
- PdfLevels.ParsePdf: starts from the lines with size and page; the layout analysis of the PDF library is not modelled.
- Parsing of docx files: a stream of the same heading and body events from a library.
- Regular expressions of the entity extractor and of the other personal data patterns, and JSON parsing of replies: results of foreign engines.
- Floating-point rounding, in fusion, graph scores, metrics and similarity.
- Row-level security, ranking inside the database and vector indexes: each transaction sees its tenant's rows, and the two database rankings are arbitrary.
- Display name and type of an entity node: the first writer wins and search does not look at them.
- HTTP routes other than the citations, authentication, schemas, notifications, drive import and the frontend: wrappers with no hard property.
