/** `Ingestor.ingest` of app/ingestor.py: per document, validate the id, synthesize chunks,
    embed the non-blank ones, pair vectors with chunks and upsert one batch of points. */
module Ingestion {
  import opened Wrappers
  import opened Text
  import opened Documents
  import opened Services
  import opened Synthesizer

  const FailurePrefix := "Ingestion failed: "
  const EmptyListMessage := "Empty document list"
  const MissingIdMessage := "Document missing ID"

  /** `if not document.id` does not fire: the id is present and not "". */
  predicate HasId(d: FinancialDocument)
  {
    d.id.Some? && d.id.value != ""
  }

  /** `[c for c in chunk if c.strip()]`. */
  function NonBlankChunks(chunks: seq<string>): (r: seq<string>)
    ensures |r| <= |chunks|
    ensures forall k :: 0 <= k < |r| ==> NonBlank(r[k])
  {
    if |chunks| == 0 then []
    else (if NonBlank(chunks[0]) then [chunks[0]] else []) + NonBlankChunks(chunks[1..])
  }

  /** The filter keeps exactly the non-blank chunks. */
  lemma {:induction false} NonBlankChunksMembers(chunks: seq<string>)
    ensures forall c :: c in NonBlankChunks(chunks) <==> c in chunks && NonBlank(c)
  {
    if |chunks| > 0 {
      NonBlankChunksMembers(chunks[1..]);
      assert forall c :: c in chunks <==> c == chunks[0] || c in chunks[1..];
    }
  }

  /** The filter distributes over concatenation, so it keeps the non-blank chunks in their
      order: filtering `a + b` is filtering `a`, then filtering `b`. */
  lemma {:induction false} NonBlankChunksAppend(a: seq<string>, b: seq<string>)
    ensures NonBlankChunks(a + b) == NonBlankChunks(a) + NonBlankChunks(b)
  {
    if |a| > 0 {
      assert (a + b)[1..] == a[1..] + b;
      NonBlankChunksAppend(a[1..], b);
    } else {
      assert a + b == b;
    }
  }

  /** Every occurrence of a non-blank chunk is kept: one embedding per occurrence. */
  lemma {:induction false} NonBlankChunksCount(chunks: seq<string>, c: string)
    requires NonBlank(c)
    ensures multiset(NonBlankChunks(chunks))[c] == multiset(chunks)[c]
  {
    if |chunks| > 0 {
      NonBlankChunksCount(chunks[1..], c);
      assert chunks == [chunks[0]] + chunks[1..];
    }
  }

  /** What the embedding comprehension produced, and the texts it sent, in order. */
  datatype EmbedRun = EmbedRun(vectors: Result<seq<Vector>>, sent: seq<string>)

  /** `[await self.embedder.embed(c) for c in texts]`: one call per text, in order,
      stopping at the first that raises. */
  function EmbedAll(client: OpenAI, texts: seq<string>): (r: EmbedRun)
    ensures r.vectors.Ok? ==>
              r.sent == texts && |r.vectors.value| == |texts|
              && forall k :: 0 <= k < |texts| ==> Embed(client, texts[k]) == Ok(r.vectors.value[k])
    ensures r.vectors.Err? ==>
              0 < |r.sent| <= |texts| && r.sent == texts[..|r.sent|]
              && Embed(client, texts[|r.sent| - 1]) == Err(r.vectors.message)
              && forall k :: 0 <= k < |r.sent| - 1 ==> Embed(client, texts[k]).Ok?
  {
    if |texts| == 0 then EmbedRun(Ok([]), [])
    else match Embed(client, texts[0])
      case Err(m) => EmbedRun(Err(m), [texts[0]])
      case Ok(v) =>
        var rest := EmbedAll(client, texts[1..]);
        assert forall k :: 1 <= k < |texts| ==> texts[k] == texts[1..][k - 1];
        EmbedRun(if rest.vectors.Ok? then Ok([v] + rest.vectors.value) else rest.vectors,
                 [texts[0]] + rest.sent)
  }

  /** `zip(vectors, chunk)` keeping the pairs whose chunk is non-blank: the i-th vector
      goes with the i-th chunk of the unfiltered list. */
  function Pairs(vectors: seq<Vector>, chunks: seq<string>): (ps: seq<(Vector, string)>)
    ensures |ps| <= |vectors| && |ps| <= |NonBlankChunks(chunks)|
    ensures forall k :: 0 <= k < |ps| ==> NonBlank(ps[k].1)
  {
    if |vectors| == 0 || |chunks| == 0 then []
    else (if NonBlank(chunks[0]) then [(vectors[0], chunks[0])] else [])
         + Pairs(vectors[1..], chunks[1..])
  }

  /** `{**document.model_dump(), "text": c}`. */
  function Payload(d: FinancialDocument, text: string): map<string, Json>
  {
    Dump(d)["text" := JStr(text)]
  }

  /** A payload holds every document field unchanged plus the chunk under "text", so the
      document validates back from it. */
  lemma PayloadKeepsDocument(d: FinancialDocument, text: string)
    ensures Payload(d, text).Keys == FieldNames + {"text"}
    ensures Payload(d, text)["text"] == JStr(text)
    ensures forall key :: key in FieldNames ==> Payload(d, text)[key] == Dump(d)[key]
    ensures Load(Payload(d, text)) == Some(d)
  {
    LoadDump(d);
    LoadIgnoresExtraKeys(Dump(d), "text", JStr(text));
  }

  /** The upserted points; `uuid4()` ids are consecutive numbers from `firstId`. */
  function Points(d: FinancialDocument, pairs: seq<(Vector, string)>, firstId: nat): seq<Point>
  {
    seq(|pairs|, k requires 0 <= k < |pairs| => Point(firstId + k, pairs[k].0, Payload(d, pairs[k].1)))
  }

  function LlmCalls(requests: seq<Request>): seq<Call>
  {
    seq(|requests|, k requires 0 <= k < |requests| => LlmCall(requests[k]))
  }

  function EmbedCalls(texts: seq<string>): seq<Call>
  {
    seq(|texts|, k requires 0 <= k < |texts| => EmbedCall(texts[k]))
  }

  /** One document's iteration: its outcome (an unwrapped cause on failure), the calls it
      made in order, and the next unused point id. */
  datatype DocRun = DocRun(outcome: Outcome, calls: seq<Call>, nextId: nat)

  function IngestDocument(store: Qdrant, collection: string, embedder: OpenAI,
                          d: FinancialDocument, nextId: nat): DocRun
  {
    if !HasId(d) then DocRun(Failure(MissingIdMessage), [], nextId)
    else
      var chunked := ChunkDocument(embedder, d);
      var asked := LlmCalls(chunked.requests);
      match chunked.chunks
      case Err(m) => DocRun(Failure(m), asked, nextId)
      case Ok(chunks) =>
        var embedded := EmbedAll(embedder, NonBlankChunks(chunks));
        var sent := asked + EmbedCalls(embedded.sent);
        match embedded.vectors
        case Err(m) => DocRun(Failure(m), sent, nextId)
        case Ok(vectors) =>
          var points := Points(d, Pairs(vectors, chunks), nextId);
          DocRun(store.upsert(collection, points), sent + [UpsertCall(collection, points)],
                 nextId + |points|)
  }

  /** A call tagged with the position of the document it was made for. */
  datatype Effect = Effect(doc: nat, call: Call)

  /** The state of `ingest` after some documents. */
  datatype Run = Run(outcome: Outcome, effects: seq<Effect>, nextId: nat)

  /** The body of the loop as a value: a document and the next free id to its iteration. */
  type Step = (FinancialDocument, nat) -> DocRun

  function DocumentStep(store: Qdrant, collection: string, embedder: OpenAI): Step
  {
    (d: FinancialDocument, nextId: nat) => IngestDocument(store, collection, embedder, d, nextId)
  }

  function Tagged(doc: nat, calls: seq<Call>): seq<Effect>
  {
    seq(|calls|, k requires 0 <= k < |calls| => Effect(doc, calls[k]))
  }

  /** The loop over `docs`, in order, stopping at the first document that raises. */
  function IngestLoop(step: Step, docs: seq<FinancialDocument>, firstId: nat): Run
  {
    if |docs| == 0 then Run(Success, [], firstId)
    else
      var before := IngestLoop(step, docs[..|docs| - 1], firstId);
      if before.outcome.Failure? then before
      else
        var after := step(docs[|docs| - 1], before.nextId);
        Run(after.outcome, before.effects + Tagged(|docs| - 1, after.calls), after.nextId)
  }

  /** The whole call: the empty-list check, the loop, and every cause re-raised with the
      "Ingestion failed: " prefix. */
  function IngestRun(store: Qdrant, collection: string, embedder: OpenAI,
                     docs: seq<FinancialDocument>, firstId: nat): Run
  {
    if |docs| == 0 then Run(Failure(FailurePrefix + EmptyListMessage), [], firstId)
    else
      var run := IngestLoop(DocumentStep(store, collection, embedder), docs, firstId);
      match run.outcome
      case Success => run
      case Failure(m) => run.(outcome := Failure(FailurePrefix + m))
  }

  /** Once a prefix of the documents has raised, the later ones change nothing. */
  lemma {:induction false} FailureIsFinal(step: Step, docs: seq<FinancialDocument>, firstId: nat, k: nat)
    requires k <= |docs|
    requires IngestLoop(step, docs[..k], firstId).outcome.Failure?
    ensures IngestLoop(step, docs, firstId) == IngestLoop(step, docs[..k], firstId)
  {
    if k == |docs| {
      assert docs[..k] == docs;
    } else {
      var init := docs[..|docs| - 1];
      assert init[..k] == docs[..k];
      FailureIsFinal(step, init, firstId, k);
    }
  }

  /** The body of the loop of `ingest` for one document, as the statements run: the
      executable form of `IngestDocument`, which the lemmas reason about. */
  method IngestOne(store: Qdrant, collection: string, embedder: OpenAI,
                   d: FinancialDocument, firstId: nat)
    returns (outcome: Outcome, calls: seq<Call>, nextId: nat)
    ensures DocRun(outcome, calls, nextId) == IngestDocument(store, collection, embedder, d, firstId)
  {
    nextId := firstId;
    if !HasId(d) {
      return Failure(MissingIdMessage), [], nextId;
    }
    var chunks, requests := CreateChunk(embedder, d);
    calls := LlmCalls(requests);
    if chunks.Err? {
      return Failure(chunks.message), calls, nextId;
    }
    var embedded := EmbedAll(embedder, NonBlankChunks(chunks.value));
    calls := calls + EmbedCalls(embedded.sent);
    if embedded.vectors.Err? {
      return Failure(embedded.vectors.message), calls, nextId;
    }
    var points := Points(d, Pairs(embedded.vectors.value, chunks.value), nextId);
    outcome := store.upsert(collection, points);
    calls := calls + [UpsertCall(collection, points)];
    nextId := nextId + |points|;
  }

  /** `ingest`. */
  method Ingest(store: Qdrant, collection: string, embedder: OpenAI,
                data: seq<FinancialDocument>, firstId: nat)
    returns (outcome: Outcome, effects: seq<Effect>, nextId: nat)
    ensures Run(outcome, effects, nextId) == IngestRun(store, collection, embedder, data, firstId)
    ensures |data| == 0 ==> outcome == Failure("Ingestion failed: Empty document list") && effects == []
    ensures outcome.Failure? ==> FailurePrefix <= outcome.message
  {
    if |data| == 0 {
      return Failure(FailurePrefix + EmptyListMessage), [], firstId;
    }
    ghost var step := DocumentStep(store, collection, embedder);
    effects := [];
    nextId := firstId;
    for i := 0 to |data|
      invariant IngestLoop(step, data[..i], firstId) == Run(Success, effects, nextId)
    {
      assert data[..i + 1][..i] == data[..i];
      var result, calls, next := IngestOne(store, collection, embedder, data[i], nextId);
      effects := effects + Tagged(i, calls);
      nextId := next;
      if result.Failure? {
        FailureIsFinal(step, data, firstId, i + 1);
        return Failure(FailurePrefix + result.message), effects, nextId;
      }
    }
    assert data[..|data|] == data;
    outcome := Success;
  }

  /** The positions of the documents that received an upsert, in the order of the calls. */
  function UpsertedDocs(effects: seq<Effect>): seq<nat>
  {
    if |effects| == 0 then []
    else UpsertedDocs(effects[..|effects| - 1])
         + (if effects[|effects| - 1].call.UpsertCall? then [effects[|effects| - 1].doc] else [])
  }

  lemma {:induction false} UpsertedDocsAppend(a: seq<Effect>, b: seq<Effect>)
    ensures UpsertedDocs(a + b) == UpsertedDocs(a) + UpsertedDocs(b)
  {
    if |b| == 0 {
      assert a + b == a;
    } else {
      UpsertedDocsAppend(a, b[..|b| - 1]);
      assert (a + b)[..|a + b| - 1] == a + b[..|b| - 1];
    }
  }

  lemma {:induction false} NoUpserts(effects: seq<Effect>)
    requires forall k :: 0 <= k < |effects| ==> !effects[k].call.UpsertCall?
    ensures UpsertedDocs(effects) == []
  {
    if |effects| > 0 {
      NoUpserts(effects[..|effects| - 1]);
    }
  }

  /** 0, 1, ..., n - 1. */
  function Upto(n: nat): seq<nat>
  {
    seq(n, k requires 0 <= k < n => k)
  }

  lemma UptoSnoc(n: nat)
    ensures Upto(n) + [n] == Upto(n + 1)
  {
  }

  /** The calls end with an upsert, and it is the only one. */
  predicate UpsertsLast(calls: seq<Call>)
  {
    |calls| > 0 && calls[|calls| - 1].UpsertCall?
    && forall k :: 0 <= k < |calls| - 1 ==> !calls[k].UpsertCall?
  }

  lemma TaggedUpsertsLast(doc: nat, calls: seq<Call>)
    requires UpsertsLast(calls)
    ensures UpsertedDocs(Tagged(doc, calls)) == [doc]
  {
    var init := Tagged(doc, calls[..|calls| - 1]);
    var last := [Effect(doc, calls[|calls| - 1])];
    NoUpserts(init);
    assert Tagged(doc, calls) == init + last;
    UpsertedDocsAppend(init, last);
    assert last[..0] == [];
  }

  /** A document whose ingestion succeeds makes exactly one upsert, as its last call. */
  lemma DocumentUpsertsOnce(store: Qdrant, collection: string, embedder: OpenAI,
                            d: FinancialDocument, firstId: nat)
    requires IngestDocument(store, collection, embedder, d, firstId).outcome.Success?
    ensures UpsertsLast(IngestDocument(store, collection, embedder, d, firstId).calls)
  {
    var chunked := ChunkDocument(embedder, d);
    assert HasId(d) && chunked.chunks.Ok?;
    var chunks := chunked.chunks.value;
    var embedded := EmbedAll(embedder, NonBlankChunks(chunks));
    assert embedded.vectors.Ok?;
    var points := Points(d, Pairs(embedded.vectors.value, chunks), firstId);
    var prefix := LlmCalls(chunked.requests) + EmbedCalls(embedded.sent);
    assert IngestDocument(store, collection, embedder, d, firstId).calls
           == prefix + [UpsertCall(collection, points)];
    assert forall k :: 0 <= k < |prefix| ==> !prefix[k].UpsertCall?;
  }

  /** Every call belongs to one of the first `n` documents, and the calls of a document
      all come before those of any later document. */
  predicate InDocumentOrder(effects: seq<Effect>, n: nat)
  {
    (forall k :: 0 <= k < |effects| ==> effects[k].doc < n)
    && forall j, k :: 0 <= j < k < |effects| ==> effects[j].doc <= effects[k].doc
  }

  lemma InDocumentOrderAppend(effects: seq<Effect>, n: nat, calls: seq<Call>)
    requires InDocumentOrder(effects, n)
    ensures InDocumentOrder(effects + Tagged(n, calls), n + 1)
  {
    var tail := Tagged(n, calls);
    var all := effects + tail;
    forall k | 0 <= k < |all| ensures all[k].doc < n + 1 {
      if k >= |effects| { assert all[k] == tail[k - |effects|]; }
    }
    forall j, k | 0 <= j < k < |all| ensures all[j].doc <= all[k].doc {
      if k >= |effects| {
        assert all[k] == tail[k - |effects|];
        if j >= |effects| { assert all[j] == tail[j - |effects|]; }
      }
    }
  }

  /** Calls are made for the documents in list order, and only for documents of the list. */
  lemma {:induction false} EffectsInDocumentOrder(step: Step, docs: seq<FinancialDocument>, firstId: nat)
    ensures InDocumentOrder(IngestLoop(step, docs, firstId).effects, |docs|)
  {
    if |docs| > 0 {
      var n := |docs| - 1;
      EffectsInDocumentOrder(step, docs[..n], firstId);
      var before := IngestLoop(step, docs[..n], firstId);
      if before.outcome.Success? {
        InDocumentOrderAppend(before.effects, n, step(docs[n], before.nextId).calls);
      }
    }
  }

  /** A successful loop is a successful loop over all but the last document, followed by
      the last document's successful iteration. */
  lemma LoopLast(step: Step, docs: seq<FinancialDocument>, firstId: nat)
    requires |docs| > 0 && IngestLoop(step, docs, firstId).outcome.Success?
    ensures var n := |docs| - 1;
            var before := IngestLoop(step, docs[..n], firstId);
            var after := step(docs[n], before.nextId);
            before.outcome.Success? && after.outcome.Success?
            && IngestLoop(step, docs, firstId).effects == before.effects + Tagged(n, after.calls)
  {
  }

  /** When every iteration succeeds and each successful iteration upserts once, as its last
      call, each document received exactly one upsert, in list order. */
  lemma {:induction false} OneUpsertPerIteration(step: Step, docs: seq<FinancialDocument>, firstId: nat)
    requires forall d, id :: step(d, id).outcome.Success? ==> UpsertsLast(step(d, id).calls)
    requires IngestLoop(step, docs, firstId).outcome.Success?
    ensures UpsertedDocs(IngestLoop(step, docs, firstId).effects) == Upto(|docs|)
  {
    if |docs| > 0 {
      var n := |docs| - 1;
      var before := IngestLoop(step, docs[..n], firstId);
      LoopLast(step, docs, firstId);
      OneUpsertPerIteration(step, docs[..n], firstId);
      var after := step(docs[n], before.nextId);
      assert UpsertsLast(after.calls);
      TaggedUpsertsLast(n, after.calls);
      UpsertedDocsAppend(before.effects, Tagged(n, after.calls));
      UptoSnoc(n);
    }
  }

  lemma DocumentStepUpsertsLast(store: Qdrant, collection: string, embedder: OpenAI)
    ensures var step := DocumentStep(store, collection, embedder);
            forall d, id :: step(d, id).outcome.Success? ==> UpsertsLast(step(d, id).calls)
  {
    forall d, id | DocumentStep(store, collection, embedder)(d, id).outcome.Success?
      ensures UpsertsLast(DocumentStep(store, collection, embedder)(d, id).calls)
    {
      DocumentUpsertsOnce(store, collection, embedder, d, id);
    }
  }

  /** When `ingest` succeeds, every document received exactly one upsert, in list order. */
  lemma OneUpsertPerDocument(store: Qdrant, collection: string, embedder: OpenAI,
                             docs: seq<FinancialDocument>, firstId: nat)
    requires IngestRun(store, collection, embedder, docs, firstId).outcome.Success?
    ensures UpsertedDocs(IngestRun(store, collection, embedder, docs, firstId).effects) == Upto(|docs|)
  {
    DocumentStepUpsertsLast(store, collection, embedder);
    OneUpsertPerIteration(DocumentStep(store, collection, embedder), docs, firstId);
  }

  /** An iteration that raises without making a call ends the loop with the effects of the
      documents before it. */
  lemma StopsAt(step: Step, docs: seq<FinancialDocument>, firstId: nat, k: nat)
    requires k < |docs|
    requires IngestLoop(step, docs[..k], firstId).outcome.Success?
    requires var before := IngestLoop(step, docs[..k], firstId);
             step(docs[k], before.nextId).outcome.Failure? && step(docs[k], before.nextId).calls == []
    ensures var before := IngestLoop(step, docs[..k], firstId);
            IngestLoop(step, docs, firstId)
            == Run(step(docs[k], before.nextId).outcome, before.effects, step(docs[k], before.nextId).nextId)
  {
    assert docs[..k + 1][..k] == docs[..k];
    var before := IngestLoop(step, docs[..k], firstId);
    assert Tagged(k, []) == [];
    assert before.effects + [] == before.effects;
    FailureIsFinal(step, docs, firstId, k + 1);
  }

  /** A document without an id is refused before any call. */
  lemma MissingIdStep(store: Qdrant, collection: string, embedder: OpenAI,
                      d: FinancialDocument, nextId: nat)
    requires !HasId(d)
    ensures DocumentStep(store, collection, embedder)(d, nextId)
            == DocRun(Failure(MissingIdMessage), [], nextId)
  {
  }

  /** A document without an id stops the call with "Ingestion failed: Document missing ID":
      every earlier document has had its one upsert, and nothing is done for it or any
      later document. */
  lemma StopsAtMissingId(store: Qdrant, collection: string, embedder: OpenAI,
                         docs: seq<FinancialDocument>, firstId: nat, k: nat)
    requires k < |docs|
    requires IngestLoop(DocumentStep(store, collection, embedder), docs[..k], firstId).outcome.Success?
    requires !HasId(docs[k])
    ensures var run := IngestRun(store, collection, embedder, docs, firstId);
            run.outcome == Failure(FailurePrefix + MissingIdMessage)
            && run.effects == IngestLoop(DocumentStep(store, collection, embedder), docs[..k], firstId).effects
            && UpsertedDocs(run.effects) == Upto(k)
            && InDocumentOrder(run.effects, k)
  {
    var step := DocumentStep(store, collection, embedder);
    var before := IngestLoop(step, docs[..k], firstId);
    MissingIdStep(store, collection, embedder, docs[k], before.nextId);
    StopsAt(step, docs, firstId, k);
    DocumentStepUpsertsLast(store, collection, embedder);
    OneUpsertPerIteration(step, docs[..k], firstId);
    EffectsInDocumentOrder(step, docs[..k], firstId);
  }

  /** In particular, a list whose first document has no id fails at once, with no call. */
  lemma FirstMissingId(store: Qdrant, collection: string, embedder: OpenAI,
                       docs: seq<FinancialDocument>, firstId: nat)
    requires 0 < |docs| && !HasId(docs[0])
    ensures var run := IngestRun(store, collection, embedder, docs, firstId);
            run.outcome == Failure(FailurePrefix + MissingIdMessage) && run.effects == []
  {
    assert docs[..0] == [];
    StopsAtMissingId(store, collection, embedder, docs, firstId, 0);
  }

  /** Every pair is the i-th vector with the i-th chunk of the unfiltered list, for some i
      at which that chunk is non-blank. */
  lemma {:induction false} PairsSameIndex(vectors: seq<Vector>, chunks: seq<string>)
    ensures forall p :: p in Pairs(vectors, chunks) ==>
              exists i :: 0 <= i < |vectors| && i < |chunks| && p == (vectors[i], chunks[i])
                          && NonBlank(chunks[i])
  {
    if |vectors| > 0 && |chunks| > 0 {
      var rest := Pairs(vectors[1..], chunks[1..]);
      PairsSameIndex(vectors[1..], chunks[1..]);
      forall p | p in Pairs(vectors, chunks)
        ensures exists i :: 0 <= i < |vectors| && i < |chunks| && p == (vectors[i], chunks[i])
                            && NonBlank(chunks[i])
      {
        if p !in rest {
          assert p == (vectors[0], chunks[0]) && NonBlank(chunks[0]);
        } else {
          var i :| 0 <= i < |vectors| - 1 && i < |chunks| - 1 && p == (vectors[1..][i], chunks[1..][i])
                   && NonBlank(chunks[1..][i]);
          assert p == (vectors[i + 1], chunks[i + 1]) && NonBlank(chunks[i + 1]);
        }
      }
    }
  }

  function Min(a: nat, b: nat): nat { if a <= b then a else b }

  /** The zip keeps one pair per non-blank chunk among the first `min(|vectors|, |chunks|)`. */
  lemma {:induction false} PairsCount(vectors: seq<Vector>, chunks: seq<string>)
    ensures |Pairs(vectors, chunks)| == |NonBlankChunks(chunks[..Min(|vectors|, |chunks|)])|
  {
    var n := Min(|vectors|, |chunks|);
    if n > 0 {
      PairsCount(vectors[1..], chunks[1..]);
      assert chunks[1..][..n - 1] == chunks[..n][1..];
    }
  }

  lemma {:induction false} NonBlankChunksShorter(chunks: seq<string>, j: nat)
    requires j < |chunks| && !NonBlank(chunks[j])
    ensures |NonBlankChunks(chunks)| < |chunks|
  {
    if j > 0 {
      NonBlankChunksShorter(chunks[1..], j - 1);
    }
  }

  /** A blank chunk anywhere before a non-blank one, with one vector per non-blank chunk,
      loses at least one point: fewer pairs are stored than non-blank chunks were embedded. */
  lemma BlankBeforeDropsPoint(vectors: seq<Vector>, chunks: seq<string>, j: nat, m: nat)
    requires j < m < |chunks| && !NonBlank(chunks[j]) && NonBlank(chunks[m])
    requires |vectors| == |NonBlankChunks(chunks)|
    ensures |Pairs(vectors, chunks)| < |NonBlankChunks(chunks)|
  {
    var n := |vectors|;
    var head, tail := chunks[..n], chunks[n..];
    assert Min(|vectors|, |chunks|) == n;
    PairsCount(vectors, chunks);
    assert chunks == head + tail;
    NonBlankChunksAppend(head, tail);
    if m >= n {
      assert tail[m - n] == chunks[m];
      NonBlankChunksMembers(tail);
      assert tail[m - n] in NonBlankChunks(tail);
    } else {
      assert head[j] == chunks[j];
      NonBlankChunksShorter(head, j);
    }
  }

  /** Every vector of a pair is one of the vectors zipped. */
  lemma {:induction false} PairVectors(vectors: seq<Vector>, chunks: seq<string>)
    ensures forall p :: p in Pairs(vectors, chunks) ==> p.0 in vectors
  {
    if |vectors| > 0 && |chunks| > 0 {
      PairVectors(vectors[1..], chunks[1..]);
      var head := if NonBlank(chunks[0]) then [(vectors[0], chunks[0])] else [];
      var rest := Pairs(vectors[1..], chunks[1..]);
      assert Pairs(vectors, chunks) == head + rest;
      forall p: (Vector, string) | p in head + rest ensures p.0 in vectors {
        if p in rest {
          assert p.0 in vectors[1..];
        }
      }
    }
  }

  /** The points built from the embeddings of the non-blank chunks: at most one per
      non-blank chunk, fresh consecutive ids, non-blank texts, payloads that validate back
      to the document, and vectors that are embeddings of non-blank chunks. */
  lemma PointsOfDocument(embedder: OpenAI, d: FinancialDocument, firstId: nat, chunks: seq<string>)
    requires EmbedAll(embedder, NonBlankChunks(chunks)).vectors.Ok?
    ensures var texts := NonBlankChunks(chunks);
            var points := Points(d, Pairs(EmbedAll(embedder, texts).vectors.value, chunks), firstId);
            |points| <= |texts|
            && forall k :: 0 <= k < |points| ==>
                 points[k].id == firstId + k
                 && points[k].payload["text"].JStr? && NonBlank(points[k].payload["text"].s)
                 && Load(points[k].payload) == Some(d)
                 && exists j :: 0 <= j < |texts| && Embed(embedder, texts[j]) == Ok(points[k].vector)
  {
    var texts := NonBlankChunks(chunks);
    var vectors := EmbedAll(embedder, texts).vectors.value;
    var pairs := Pairs(vectors, chunks);
    var points := Points(d, pairs, firstId);
    PairVectors(vectors, chunks);
    forall k | 0 <= k < |points|
      ensures points[k].payload["text"].JStr? && NonBlank(points[k].payload["text"].s)
      ensures Load(points[k].payload) == Some(d)
      ensures exists j :: 0 <= j < |texts| && Embed(embedder, texts[j]) == Ok(points[k].vector)
    {
      PayloadKeepsDocument(d, pairs[k].1);
      assert pairs[k] in pairs;
      var j :| 0 <= j < |vectors| && vectors[j] == pairs[k].0;
      assert Embed(embedder, texts[j]) == Ok(points[k].vector);
    }
  }

  /** For a document whose chunks and embeddings succeed: one embedding call per non-blank
      chunk, in chunk order, then exactly one upsert, even of no points. */
  lemma DocumentCalls(store: Qdrant, collection: string, embedder: OpenAI,
                      d: FinancialDocument, firstId: nat, chunks: seq<string>)
    requires HasId(d)
    requires ChunkDocument(embedder, d).chunks == Ok(chunks)
    requires EmbedAll(embedder, NonBlankChunks(chunks)).vectors.Ok?
    ensures var texts := NonBlankChunks(chunks);
            var points := Points(d, Pairs(EmbedAll(embedder, texts).vectors.value, chunks), firstId);
            IngestDocument(store, collection, embedder, d, firstId)
            == DocRun(store.upsert(collection, points),
                      LlmCalls(ChunkDocument(embedder, d).requests) + EmbedCalls(texts)
                      + [UpsertCall(collection, points)],
                      firstId + |points|)
  {
  }

  /** When all non-blank chunks come before all blank ones, there is exactly one point per
      non-blank chunk and each point's vector is the embedding of its own text. */
  lemma {:induction false} PairsAligned(vectors: seq<Vector>, good: seq<string>, blanks: seq<string>)
    requires |vectors| == |good|
    requires forall k :: 0 <= k < |good| ==> NonBlank(good[k])
    requires forall k :: 0 <= k < |blanks| ==> !NonBlank(blanks[k])
    ensures NonBlankChunks(good + blanks) == good
    ensures Pairs(vectors, good + blanks) == Zip(vectors, good)
  {
    if |good| == 0 {
      BlanksFilteredOut(blanks);
      assert good + blanks == blanks;
    } else {
      PairsAligned(vectors[1..], good[1..], blanks);
      var chunks := good + blanks;
      assert chunks[0] == good[0] && chunks[1..] == good[1..] + blanks;
      assert NonBlankChunks(chunks) == [good[0]] + NonBlankChunks(chunks[1..]);
      assert Pairs(vectors, chunks) == [(vectors[0], good[0])] + Pairs(vectors[1..], chunks[1..]);
      assert Zip(vectors, good) == [(vectors[0], good[0])] + Zip(vectors[1..], good[1..]);
      assert good == [good[0]] + good[1..];
    }
  }

  /** `zip(vectors, texts)` of equal lengths. */
  function Zip(vectors: seq<Vector>, texts: seq<string>): seq<(Vector, string)>
    requires |vectors| == |texts|
  {
    seq(|texts|, k requires 0 <= k < |texts| => (vectors[k], texts[k]))
  }

  lemma {:induction false} BlanksFilteredOut(blanks: seq<string>)
    requires forall k :: 0 <= k < |blanks| ==> !NonBlank(blanks[k])
    ensures NonBlankChunks(blanks) == []
  {
    if |blanks| > 0 {
      BlanksFilteredOut(blanks[1..]);
    }
  }

  /** With only trailing blank chunks, the points are exactly the non-blank chunks, in
      order, each stored with its own embedding. */
  lemma TrailingBlanksStoreOwnEmbeddings(store: Qdrant, collection: string, embedder: OpenAI,
                                         d: FinancialDocument, firstId: nat,
                                         good: seq<string>, blanks: seq<string>)
    requires HasId(d)
    requires ChunkDocument(embedder, d).chunks == Ok(good + blanks)
    requires forall k :: 0 <= k < |good| ==> NonBlank(good[k])
    requires forall k :: 0 <= k < |blanks| ==> !NonBlank(blanks[k])
    requires EmbedAll(embedder, good).vectors.Ok?
    ensures var calls := IngestDocument(store, collection, embedder, d, firstId).calls;
            calls[|calls| - 1] == UpsertCall(collection,
              seq(|good|, k requires 0 <= k < |good| =>
                    Point(firstId + k, Embed(embedder, good[k]).value, Payload(d, good[k]))))
  {
    var vectors := EmbedAll(embedder, good).vectors.value;
    PairsAligned(vectors, good, blanks);
  }

  /** A blank chunk before two non-blank ones breaks the pairing: one point instead of two,
      and it stores the first text with the embedding of the second. */
  lemma LeadingBlankMisaligns(embedder: OpenAI, blank: string, a: string, b: string)
    requires !NonBlank(blank) && NonBlank(a) && NonBlank(b)
    requires Embed(embedder, a).Ok? && Embed(embedder, b).Ok?
    ensures var chunks := [blank, a, b];
            var vectors := EmbedAll(embedder, NonBlankChunks(chunks)).vectors;
            vectors.Ok? && Pairs(vectors.value, chunks) == [(Embed(embedder, b).value, a)]
  {
    var chunks := [blank, a, b];
    assert [b][1..] == [] && NonBlankChunks([b]) == [b] + NonBlankChunks([]);
    assert [a, b][1..] == [b] && NonBlankChunks([a, b]) == [a] + NonBlankChunks([b]);
    assert chunks[1..] == [a, b] && NonBlankChunks(chunks) == NonBlankChunks([a, b]);
    var va, vb := Embed(embedder, a).value, Embed(embedder, b).value;
    assert EmbedAll(embedder, []).vectors == Ok([]);
    assert [vb] + [] == [vb] && [va] + [vb] == [va, vb];
    assert EmbedAll(embedder, [b]).vectors == Ok([vb]);
    assert EmbedAll(embedder, [a, b]).vectors == Ok([va, vb]);
    assert [va, vb][1..] == [vb] && [vb][1..] == [];
    assert Pairs([vb], [a, b]) == [(vb, a)] + Pairs([], [b]);
    assert Pairs([va, vb], chunks) == Pairs([vb], [a, b]);
  }

  /** A document whose chunks are all blank still gets its one upsert, of no points. */
  lemma AllBlankStillUpserts(store: Qdrant, collection: string, embedder: OpenAI,
                             d: FinancialDocument, firstId: nat, chunks: seq<string>)
    requires HasId(d)
    requires ChunkDocument(embedder, d).chunks == Ok(chunks)
    requires forall k :: 0 <= k < |chunks| ==> !NonBlank(chunks[k])
    ensures IngestDocument(store, collection, embedder, d, firstId)
         == DocRun(store.upsert(collection, []),
                   LlmCalls(ChunkDocument(embedder, d).requests) + [UpsertCall(collection, [])],
                   firstId)
  {
    BlanksFilteredOut(chunks);
    var vectors := EmbedAll(embedder, []).vectors.value;
    assert Pairs(vectors, chunks) == [];
    assert EmbedCalls([]) == [];
  }

  /** A one-element list never takes the empty-list branch: the call is that document's
      iteration, its cause wrapped. */
  lemma SingleDocumentIngest(store: Qdrant, collection: string, embedder: OpenAI,
                             d: FinancialDocument, firstId: nat)
    ensures var step := IngestDocument(store, collection, embedder, d, firstId);
            IngestRun(store, collection, embedder, [d], firstId)
            == Run(match step.outcome
                   case Success => Success
                   case Failure(m) => Failure(FailurePrefix + m),
                   Tagged(0, step.calls), step.nextId)
  {
    assert [d][..0] == [];
    var step := IngestDocument(store, collection, embedder, d, firstId);
    assert IngestLoop(DocumentStep(store, collection, embedder), [d], firstId)
        == Run(step.outcome, [] + Tagged(0, step.calls), step.nextId);
    assert [] + Tagged(0, step.calls) == Tagged(0, step.calls);
  }
}
