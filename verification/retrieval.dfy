/** The `chat` endpoint of app/main.py: the last message is the query, its embedding is
    searched in the collection, the hits are de-duplicated by text and joined into the
    context of a system message, and the conversation is sent to the chat model. */
module Retrieval {
  import opened Wrappers
  import opened Text
  import opened Services
  import opened Synthesizer

  /** `COLLECTION_NAME`. */
  const CollectionName := "financial_docs2"
  const SearchLimit := 10
  const ScoreThreshold := 0.6

  /** A message of the request body. */
  datatype ChatMessage = ChatMessage(role: string, content: string)

  /** The request body; `temperature` is 0.7 when the client leaves it out. */
  datatype ChatRequest = ChatRequest(messages: seq<ChatMessage>, temperature: Option<real>,
                                     stream: Option<bool>)

  /** `list({t: r for r in hits}.values())` read through the texts: a dictionary keeps the
      position at which a key was first inserted, so the distinct texts come out in the
      order of their first occurrence. */
  function Dedup(texts: seq<string>): seq<string>
  {
    if |texts| == 0 then []
    else
      var n := |texts| - 1;
      if texts[n] in texts[..n] then Dedup(texts[..n]) else Dedup(texts[..n]) + [texts[n]]
  }

  /** The position of the first occurrence of `t`. */
  function FirstIndex(texts: seq<string>, t: string): (k: nat)
    requires t in texts
    ensures k < |texts| && texts[k] == t && forall j :: 0 <= j < k ==> texts[j] != t
  {
    if texts[0] == t then 0 else 1 + FirstIndex(texts[1..], t)
  }

  /** The first occurrence is the only position holding `t` with no `t` before it. */
  lemma FirstIndexUnique(texts: seq<string>, t: string, k: nat)
    requires k < |texts| && texts[k] == t && forall j :: 0 <= j < k ==> texts[j] != t
    ensures FirstIndex(texts, t) == k
  {
  }

  /** Every text of the hits survives, and nothing else appears. */
  lemma {:induction false} DedupMembers(texts: seq<string>)
    ensures forall t :: t in Dedup(texts) <==> t in texts
  {
    if |texts| > 0 {
      var n := |texts| - 1;
      DedupMembers(texts[..n]);
      assert texts == texts[..n] + [texts[n]];
    }
  }

  /** No text appears twice. */
  predicate Distinct(texts: seq<string>)
  {
    forall i, j :: 0 <= i < j < |texts| ==> texts[i] != texts[j]
  }

  /** One result per distinct text. */
  lemma {:induction false} DedupDistinct(texts: seq<string>)
    ensures Distinct(Dedup(texts))
  {
    if |texts| > 0 {
      var n := |texts| - 1;
      var init := texts[..n];
      DedupDistinct(init);
      DedupMembers(init);
      var before := Dedup(init);
      var r := Dedup(texts);
      if texts[n] !in init {
        assert r == before + [texts[n]];
        forall i, j | 0 <= i < j < |r| ensures r[i] != r[j] {
          assert r[i] == before[i];
          if j < |before| {
            assert r[j] == before[j];
          } else {
            assert r[j] == texts[n] && before[i] in before;
          }
        }
      } else {
        assert r == before;
      }
    }
  }

  /** The distinct texts keep the order of their first occurrence. */
  lemma {:induction false} DedupFirstOccurrenceOrder(texts: seq<string>)
    ensures var r := Dedup(texts);
            forall t :: t in r ==> t in texts
    ensures var r := Dedup(texts);
            forall i, j :: 0 <= i < j < |r| ==> FirstIndex(texts, r[i]) < FirstIndex(texts, r[j])
  {
    DedupMembers(texts);
    if |texts| > 0 {
      var n := |texts| - 1;
      var init := texts[..n];
      DedupFirstOccurrenceOrder(init);
      DedupMembers(init);
      var before := Dedup(init);
      var r := Dedup(texts);
      forall t | t in init ensures FirstIndex(texts, t) == FirstIndex(init, t) {
        FirstIndexUnique(texts, t, FirstIndex(init, t));
      }
      if texts[n] !in init {
        forall j | 0 <= j < n ensures texts[j] != texts[n] {
          assert texts[j] == init[j];
        }
        FirstIndexUnique(texts, texts[n], n);
        forall i, j | 0 <= i < j < |r| ensures FirstIndex(texts, r[i]) < FirstIndex(texts, r[j]) {
          assert r[i] == before[i] && r[i] in init;
          if j < |before| {
            assert r[j] == before[j] && r[j] in init;
          }
        }
      }
    }
  }

  /** `"\n".join(...)` over the distinct texts. */
  function Context(texts: seq<string>): string
  {
    Join(Dedup(texts), "\n")
  }

  /** No hits give an empty context. */
  lemma EmptyContext()
    ensures Context([]) == ""
  {
  }

  /** When no text holds a newline, splitting the context on "\n" gives the distinct texts
      back. */
  lemma ContextRecoversTexts(texts: seq<string>)
    requires |texts| > 0
    requires forall k :: 0 <= k < |texts| ==> '\n' !in texts[k]
    ensures Split(Context(texts), '\n') == Dedup(texts)
  {
    DedupMembers(texts);
    var r := Dedup(texts);
    assert texts[0] in r;
    forall k | 0 <= k < |r| ensures '\n' !in r[k] {
      assert r[k] in texts;
    }
    SplitJoin(r, '\n');
  }

  /** The source lines of the system message's f-string are indented by 20 spaces, and the
      indentation is part of the string. */
  const Indent := "                    "

  const SystemPrefix := "\n"
    + Indent + "You are a helpful assistant that answers questions based on the provided context.\n"
    + Indent + "Only use the information from the context to answer questions.\n"
    + Indent + "If you cannot find the answer in the context, say so.\n"
    + Indent + "<context>\n"
    + Indent

  const SystemSuffix := "\n" + Indent + "</context>\n" + Indent

  function SystemContent(context: string): string
  {
    SystemPrefix + context + SystemSuffix
  }

  /** The context sits between the fixed prefix and suffix, and can be cut back out. */
  lemma SystemContentRecoversContext(context: string)
    ensures var s := SystemContent(context);
            SystemPrefix <= s && |s| == |SystemPrefix| + |context| + |SystemSuffix|
            && s[|SystemPrefix|..|s| - |SystemSuffix|] == context
  {
    var s := SystemContent(context);
    assert s[..|SystemPrefix|] == SystemPrefix;
    assert s[|SystemPrefix|..|s| - |SystemSuffix|] == context;
  }

  /** The messages sent: one system message with the context, then every request message in
      its original order. */
  function Messages(request: ChatRequest, context: string): (r: seq<Message>)
    ensures |r| == |request.messages| + 1
    ensures r[0] == Message("system", SystemContent(context))
    ensures forall k :: 0 <= k < |request.messages| ==>
              r[k + 1] == Message(request.messages[k].role, request.messages[k].content)
  {
    [Message("system", SystemContent(context))]
    + seq(|request.messages|, k requires 0 <= k < |request.messages| =>
            Message(request.messages[k].role, request.messages[k].content))
  }

  /** The search the query's embedding is sent with. */
  function Query(vector: Vector): SearchQuery
  {
    SearchQuery(vector, SearchLimit, ScoreThreshold, ["text"])
  }

  /** The endpoint's answer (the normalised completion, or the 500 error's detail) and the
      calls it made, in order. */
  datatype ChatRun = ChatRun(response: Result<ChatResponse>, calls: seq<Call>)

  /** `chat`. */
  function Chat(client: OpenAI, store: Qdrant, request: ChatRequest): (r: ChatRun)
    ensures request.messages == [] ==> r == ChatRun(Err(IndexErrorMessage), [])
    ensures request.messages != [] ==>
              1 <= |r.calls| <= 3
              && r.calls[0] == EmbedCall(request.messages[|request.messages| - 1].content)
    ensures r.response.Ok? ==> |r.calls| == 3
  {
    if |request.messages| == 0 then ChatRun(Err(IndexErrorMessage), [])
    else
      var query := request.messages[|request.messages| - 1].content;
      match Embed(client, query)
      case Err(m) => ChatRun(Err(m), [EmbedCall(query)])
      case Ok(vector) =>
        var search := SearchCall(CollectionName, Query(vector));
        match store.search(CollectionName, Query(vector))
        case Err(m) => ChatRun(Err(m), [EmbedCall(query), search])
        case Ok(hits) =>
          var messages := Messages(request, Context(hits));
          ChatRun(ChatCompletion(client, messages, request.temperature),
                  [EmbedCall(query), search, LlmCall(Conversation(messages, request.temperature))])
  }

  /** The successful path: the last message's content is embedded, the collection is searched
      with limit 10, threshold 0.6 and the "text" payload, and one completion is requested
      for the system message around the hits' context followed by every request message, at
      the request's temperature; its normalised reply is the answer. */
  lemma ChatAnswersFromContext(client: OpenAI, store: Qdrant, request: ChatRequest,
                               vector: Vector, hits: seq<string>)
    requires request.messages != []
    requires Embed(client, request.messages[|request.messages| - 1].content) == Ok(vector)
    requires store.search(CollectionName, Query(vector)) == Ok(hits)
    ensures var messages := Messages(request, Context(hits));
            var r := Chat(client, store, request);
            r.calls == [EmbedCall(request.messages[|request.messages| - 1].content),
                        SearchCall("financial_docs2", SearchQuery(vector, 10, 0.6, ["text"])),
                        LlmCall(Conversation(messages, request.temperature))]
            && r.response == ChatCompletion(client, messages, request.temperature)
            && messages[0].content == SystemContent(Join(Dedup(hits), "\n"))
  {
  }

  /** A failed embedding or search is the answer's error, and nothing after it is called. */
  lemma ChatStopsAtFirstError(client: OpenAI, store: Qdrant, request: ChatRequest)
    requires request.messages != []
    ensures var query := request.messages[|request.messages| - 1].content;
            var r := Chat(client, store, request);
            (Embed(client, query).Err? ==>
               r == ChatRun(Err(Embed(client, query).message), [EmbedCall(query)]))
            && (Embed(client, query).Ok?
                && store.search(CollectionName, Query(Embed(client, query).value)).Err? ==>
                  r.response == Err(store.search(CollectionName, Query(Embed(client, query).value)).message)
                  && |r.calls| == 2)
  {
  }
}
