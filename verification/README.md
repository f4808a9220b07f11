# simple_rag ingestion and retrieval core, modelled in Dafny

This project models the sequential logic of a small retrieval-augmented chat service for
financial documents:

- **Documents** (`documents.dfy`): the `FinancialDocument` schema, with seven optional fields.
  Also `model_dump` and validation back from a payload dictionary.
- **Synthesizer** (`synthesizer.dfy`): `EmbeddingService`.
  - Table serialisation: comma-joined cells, newline-joined rows.
  - Table verbalization, with its fallback to the raw table text.
  - Chunk synthesis, which splits the reply on newlines.
  - The step-by-step assembly of a document's content in `create_chunk`, including the
    TypeError that a successful verbalization causes.
  - Embedding, and the normalised chat-completion dictionary.
- **Ingestion** (`ingestion.dfy`): `Ingestor.ingest`, a loop over the documents.
  - Each document's id is validated.
  - Its content is chunked, and the non-blank chunks are embedded.
  - Vectors are zipped against the unfiltered chunk list.
  - Points carry the document's fields plus the chunk text, and there is one upsert per
    document.
  - Every failure is re-raised as "Ingestion failed: " followed by the cause.
- **Batch** (`batch.dfy`): the progress record of `ingest_document` / `process_document`.
  - The shared progress dictionary is a class whose methods update a batch's record the
    way the endpoint does.
  - A run of the concurrent documents is a sequence of atomic slot events. The semaphore
    of 10 admits each event.
  - A specification function replays a sequence of events.
- **Retrieval** (`retrieval.dfy`): the `chat` endpoint.
  - The query is the last message.
  - The search is made with its fixed parameters.
  - Hits are de-duplicated by text and joined into the context.
  - The system message wraps the context, and the message list is assembled around it.
- **Text** (`text.dfy`): the Python string operations these rely on (`join`, `split`,
  `strip`, decimal rendering). **Services** (`services.dfy`): the OpenAI and Qdrant
  capabilities. **Wrappers** (`wrappers.dfy`): `Option`, `Result`, `Outcome`.

OpenAI and Qdrant are values of function type, so the model calls them but assumes nothing
about their answers. Operations return the calls they made, in order, next to their result.
Call counts and call order are stated on those traces.

Three behaviours of the code are worth knowing:

- The code does not always store one point per non-blank chunk. Vectors are zipped with
  the unfiltered chunk list, so a blank chunk before a non-blank one shifts the pairing and
  drops points.
- Chat errors carry the bare exception message, not the stage that failed.
- De-duplication keeps each text at the position of its first occurrence. A Python
  dictionary keeps a key where it was first inserted, even when a later hit replaces the
  value.

## Model

| member | source | states |
|---|---|---|
| Documents.Dump | app/types.py:4-14 | `model_dump` yields exactly the seven schema keys |
| Documents.LoadDump | app/types.py:4-14 | validating a dumped document gives the same document back |
| Documents.LoadIgnoresExtraKeys | app/types.py:13-14 | an extra key (such as `text`) does not change what validates (`extra = 'ignore'`) |
| Text.NonBlankIff | app/ingestor.py:29 | `c.strip()` is truthy exactly when `c` holds a character that is not whitespace |
| Synthesizer.SerializeTableRoundTrip | app/openai_service.py:15 | splitting the table text on "\n" then "," gives the table back when the table and its rows are non-empty and no cell holds "," or "\n" |
| Synthesizer.SerializeTableAmbiguous | app/openai_service.py:15 | the empty table and the table of one empty row serialise to the same text |
| Synthesizer.ReplyLinesShape | app/openai_service.py:29 | a usable reply splits into one line more than its newlines (so `or []` never applies), and re-joining with "\n" gives the reply verbatim |
| Synthesizer.VerbalizeTable | app/openai_service.py:14-32 | the result is a list exactly when the call succeeds with a readable first choice, and then it is the reply's lines, which re-join with "\n" to the reply; otherwise it is the serialised table string |
| Synthesizer.DropEmpty | app/openai_service.py:49 | `filter(None, …)` keeps only non-empty strings |
| Synthesizer.DropEmptyPair | app/openai_service.py:49 | filtering two strings keeps each one that is non-empty, in order |
| Synthesizer.TableContext | app/openai_service.py:47-49 | the context is the pre-text, the post-text, or both joined by "\n", and "" when both are empty |
| Synthesizer.FirstList | app/openai_service.py:62 | the position of the first list among the parts, with only strings before it |
| Synthesizer.JoinParts | app/openai_service.py:62 | the space-join succeeds exactly when every part is a string |
| Synthesizer.CreateChunk | app/openai_service.py:45-64 | building the parts step by step yields the chunks and the requests of `ChunkDocument` |
| Synthesizer.ChunkWithoutTable | app/openai_service.py:51-64 | without a table, the non-empty pre- and post-text are joined by a space, and one chunk-synthesis request is made whose result is returned unchanged |
| Synthesizer.ChunkWithTableFallback | app/openai_service.py:55-62 | when verbalization falls back, the content is pre-text, table text, post-text in that order, and exactly two requests are made, the table one first |
| Synthesizer.CreateChunks | app/openai_service.py:34-43 | a client error passes through unchanged; the result is Ok exactly when the reply has a first choice with content, and is then the reply's lines, one more than its newlines, which re-join with "\n" to the reply; an unusable reply gives its IndexError or AttributeError message |
| Synthesizer.ChunkWithTableRaises | app/openai_service.py:56-62 | a successful verbalization puts a list into the parts: the join raises "sequence item 0/1: expected str instance, list found", and no chunk-synthesis request is made |
| Synthesizer.Embed | app/openai_service.py:66-71 | the first embedding of the response; a client error passes through unchanged, and an empty response raises "list index out of range" |
| Synthesizer.ChatCompletion | app/openai_service.py:73-96 | exactly one choice (index 0, object "chat.completion") copying role, content and finish reason, plus id, created, model and the three usage counters; a client error passes through, and no choices gives "list index out of range" |
| Ingestion.NonBlankChunks | app/ingestor.py:29 | the filter keeps at most the input's length, and only non-blank chunks |
| Ingestion.NonBlankChunksMembers | app/ingestor.py:29 | a chunk survives the filter exactly when it is non-blank |
| Ingestion.NonBlankChunksAppend | app/ingestor.py:29 | the filter distributes over concatenation, so the kept chunks stay in their order |
| Ingestion.NonBlankChunksCount | app/ingestor.py:29 | every occurrence of a non-blank chunk is kept, so each gets its own embedding |
| Ingestion.EmbedAll | app/ingestor.py:29 | one embedding request per text, in order; on success one vector per text, each the embedding of its own text; on error the requests stop at the failing text |
| Ingestion.Pairs | app/ingestor.py:41 | at most one pair per vector and per non-blank chunk, and only non-blank texts; PairsSameIndex and PairsCount state which pairs |
| Ingestion.PairsSameIndex | app/ingestor.py:41 | every pair is the i-th vector with the i-th chunk of the unfiltered list, at a non-blank position i |
| Ingestion.PairsCount | app/ingestor.py:41 | the number of pairs is the number of non-blank chunks among the first min(vectors, chunks) |
| Ingestion.BlankBeforeDropsPoint | app/ingestor.py:29-41 | with one vector per non-blank chunk, any blank chunk before a non-blank one makes fewer points than embedded chunks |
| Ingestion.PayloadKeepsDocument | app/ingestor.py:37-40 | a payload is every document field unchanged plus `text` holding the chunk, and it validates back to the document |
| Ingestion.FailureIsFinal | app/ingestor.py:16-50 | once a document raises, later documents change nothing |
| Ingestion.IngestOne | app/ingestor.py:24-42 | one iteration of the loop computes `IngestDocument` (id check, chunking, embedding, one upsert) |
| Ingestion.Ingest | app/ingestor.py:15-50 | the loop computes `IngestRun`; an empty list fails with "Ingestion failed: Empty document list" and makes no call; every failure message starts with "Ingestion failed: " |
| Ingestion.DocumentUpsertsOnce | app/ingestor.py:32-42 | a document that succeeds makes exactly one upsert, and it is its last call |
| Ingestion.EffectsInDocumentOrder | app/ingestor.py:23 | calls are made for the documents in list order, and only for documents of the list |
| Ingestion.OneUpsertPerIteration | app/ingestor.py:23-45 | when each successful iteration ends with its only upsert, a successful loop upserts each document exactly once, in order |
| Ingestion.DocumentStepUpsertsLast | app/ingestor.py:32-42 | the per-document step of `ingest` meets that condition |
| Ingestion.OneUpsertPerDocument | app/ingestor.py:23-45 | when `ingest` succeeds, document i receives exactly the i-th upsert |
| Ingestion.StopsAt | app/ingestor.py:23-25 | an iteration that raises before any call ends the loop with the earlier documents' calls |
| Ingestion.MissingIdStep | app/ingestor.py:24-25 | a document without an id (absent or "") raises "Document missing ID" before any call |
| Ingestion.StopsAtMissingId | app/ingestor.py:23-25 | a document without an id, at any position including the first, ends the call with "Ingestion failed: Document missing ID"; every earlier document got its one upsert, and nothing is done for it or any later document |
| Ingestion.FirstMissingId | app/ingestor.py:23-25 | a list whose first document has no id fails with that message and makes no call |
| Ingestion.PairVectors | app/ingestor.py:41 | every stored vector is one of the computed vectors |
| Ingestion.PointsOfDocument | app/ingestor.py:34-41 | at most one point per non-blank chunk; consecutive fresh ids; non-blank texts; payloads that validate to the document; vectors that are embeddings of non-blank chunks |
| Ingestion.DocumentCalls | app/ingestor.py:28-42 | a document whose chunking and embedding succeed makes its chunking requests, then one embedding per non-blank chunk in order, then exactly one upsert |
| Ingestion.PairsAligned | app/ingestor.py:41 | when all non-blank chunks precede all blank ones, the pairs are exactly the zip of vectors with the non-blank chunks |
| Ingestion.BlanksFilteredOut | app/ingestor.py:29 | all-blank chunks leave nothing to embed |
| Ingestion.TrailingBlanksStoreOwnEmbeddings | app/ingestor.py:29-41 | with only trailing blanks, the upsert holds exactly one point per non-blank chunk, each with the embedding of its own text |
| Ingestion.LeadingBlankMisaligns | app/ingestor.py:29-41 | with a blank chunk before two non-blank ones, only one point is stored, and it pairs the first text with the second text's embedding (the general loss is BlankBeforeDropsPoint) |
| Ingestion.AllBlankStillUpserts | app/ingestor.py:32-42 | a document whose chunks are all blank still makes its one upsert, of no points |
| Ingestion.SingleDocumentIngest | app/main.py:97 | ingesting a one-element list is that document's iteration with its cause wrapped, so the empty-list check never fires |
| Batch.Replay | app/main.py:91-105 | the record after the enter and leave updates and the first-failure marking; its contract keeps `total`, and ReplayMatchesSlots, ReplayPercent and ReplayFailure state what it computes |
| Batch.FirstFailure | app/main.py:124-128 | the recorded message is that of a document whose ingestion raised |
| Batch.SlotsInvariant | app/main.py:77 | under the semaphore a document holds at most one slot, at most 10 are held, and only documents of the batch run |
| Batch.ReplayMatchesSlots | app/main.py:92-102 | `current_tasks` counts the held slots and `processed` the documents that left theirs |
| Batch.ReplayBounds | app/main.py:92-105 | `current_tasks` stays within 0..10 and `processed` never exceeds `total` |
| Batch.ReplayPercent | app/main.py:103-105 | `percent_complete` is always processed/total*100 |
| Batch.ReplayFailure | app/main.py:124-128 | status is "failed", with the first raised message as `error`, exactly when some document raised; otherwise "in_progress" with no error |
| Batch.PercentFullIff | app/main.py:103-105 | the percentage is 100 exactly when processed = total |
| Batch.ProcessedNonDecreasing | app/main.py:100 | `processed` never decreases along a run |
| Batch.PercentNonDecreasing | app/main.py:103-105 | `percent_complete` never decreases along a run |
| Batch.LogPointsAreMultiples | app/main.py:108 | a progress line is logged exactly when `processed` reaches 10, 20, … |
| Batch.CompleteRunCounts | app/main.py:115-120 | after a full run, processed = total, no slot is held and the percentage is 100, whatever the outcomes |
| Batch.CompleteRunSucceeds | app/main.py:117-120 | when every document succeeds, the record ends "completed" at 100 with processed = total and no error |
| Batch.EmptyBatch | app/main.py:115-120 | an empty batch ends "completed" at 100 without a division |
| Batch.CompleteRunFails | app/main.py:124-128 | when a document raises, the record ends "failed" with a raised message, and every document is still processed (percentage 100) |
| Batch.ProgressTable.constructor | app/main.py:68 | the progress table starts empty |
| Batch.ProgressTable.Start | app/main.py:80-87 | a new record: total = document count, processed 0, current_tasks 0, percent 0, "in_progress" |
| Batch.ProgressTable.EnterSlot | app/main.py:93-94 | entering a slot increments `current_tasks` and changes nothing else |
| Batch.ProgressTable.LeaveSlot | app/main.py:99-112 | leaving increments `processed`, decrements `current_tasks` and recomputes the percentage; a line is logged when processed is a multiple of 10 |
| Batch.ProgressTable.MarkCompleted | app/main.py:118-120 | status "completed", percentage 100.0 |
| Batch.ProgressTable.MarkFailed | app/main.py:125-128 | status "failed" and `error` set, only when the batch id is present |
| Batch.Occur | app/main.py:91-112 | one slot event applied to the table advances the replay by that event |
| Batch.RunSchedule | app/main.py:115 | running every event leaves the record equal to the replay, with the first raised message and the logged points |
| Batch.IngestDocuments | app/main.py:72-131 | the endpoint leaves the batch's record at `Final` and answers success, or the first raised message |
| Retrieval.DedupMembers | app/main.py:156 | every text of the hits survives de-duplication, and nothing else appears |
| Retrieval.DedupDistinct | app/main.py:156 | one result per distinct text |
| Retrieval.DedupFirstOccurrenceOrder | app/main.py:156 | the distinct texts keep the order of their first occurrence |
| Retrieval.FirstIndex | app/main.py:156 | the first position holding the text |
| Retrieval.FirstIndexUnique | app/main.py:156 | that position is the only one with no earlier occurrence |
| Retrieval.EmptyContext | app/main.py:160 | no hits give the empty context |
| Retrieval.ContextRecoversTexts | app/main.py:160 | when no text holds a newline, splitting the context on "\n" gives the distinct texts back |
| Retrieval.SystemContentRecoversContext | app/main.py:166-176 | the system message is the fixed indented prefix, the context, then the fixed suffix, and the context can be cut back out |
| Retrieval.Messages | app/main.py:165-178 | one system message with the context, then every request message's role and content in the original order |
| Retrieval.Chat | app/main.py:134-190 | an empty message list fails with "list index out of range" and makes no call; otherwise the first call embeds the last message's content; a success makes exactly three calls |
| Retrieval.ChatAnswersFromContext | app/main.py:141-180 | on success the calls are embedding, search (limit 10, threshold 0.6, payload "text") and one completion of the system message plus the request messages at the request's temperature, whose normalised reply is the answer |
| Retrieval.ChatStopsAtFirstError | app/main.py:147-153 | a failed embedding or search is the answer's error, and nothing after it is called |

## Left out

- Framework and I/O setup are not modelled: the FastAPI app, CORS, dotenv, Qdrant client
  construction and collection creation (app/main.py:1-55). Also the HTTP status code of the
  error responses; a failure's detail string is modelled.
- Logging, timing and `print`. The log lines of `process_document` are reduced to the
  processed counts at which one is written. The ingestor's own per-document progress log
  and the `:.1f` formatting are left out.
- `EmbeddingService.__init__` and `Ingestor.__init__` are left out; they only read an
  environment key and wire clients.
- The stub `Ingestor.search` (always `[]`) is left out.
- app/prompts.py is left out: prompts are constant strings, so a request records its kind
  and its inputs instead.
- OpenAI and Qdrant are function values. The same request always gets the same reply, and
  their network behaviour is not modelled. A search yields the `text` payloads of its hits,
  so a hit without that payload (a KeyError) is not modelled.
- `uuid4()` is not modelled. Point ids are consecutive numbers from a caller-supplied
  counter, and the batch id is a parameter.
- Floating point: vectors, temperatures and the percentage are exact reals.
- asyncio `gather`, `Semaphore` and `threading.Lock` are not modelled as real concurrency.
  A run is a sequence of atomic slot events, and the semaphore is an admissibility
  condition on it. The `except` branch is taken right after the first failing slot is
  left. The endpoint's reply time relative to documents still running is not modelled;
  the record is described after all events.
- Batch.IngestDocuments: the per-document outcomes of `ingestor.ingest([doc])` are a
  parameter, not computed by the ingestion model. The ids an upsert receives depend on the
  interleaving. Ingestion.SingleDocumentIngest relates one such call to the ingestion model.
- Batch.IngestDocuments: requires a complete run, because `gather` returns only when every
  document has finished. The endpoint's early 500 reply on a failure is not separately
  modelled.
- Pydantic request parsing is not modelled. The 0.7 default for a missing temperature is
  applied at parse time; the request carries an optional temperature and `stream` is
  unused, as in the source.
- `annotation` values (`Any`) are reduced to a JSON datatype. `str(cell)` in table
  serialisation is the identity, since cells are strings in the schema.
- Synthesizer.ChatCompletion: assumes the completion always carries a usage block. A
  response without one would raise, and that is not modelled.
