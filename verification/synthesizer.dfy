/** EmbeddingService of app/openai_service.py: table serialisation and verbalization,
    chunk synthesis, the assembly of a document's content, embedding and the
    normalisation of a chat completion. */
module Synthesizer {
  import opened Wrappers
  import opened Text
  import opened Documents
  import opened Services

  /** `str` of the IndexError raised by `response.choices[0]` or `response.data[0]` on an empty list. */
  const IndexErrorMessage := "list index out of range"
  /** `str` of the AttributeError raised by `.split` on a null message content. */
  const NoneSplitMessage := "'NoneType' object has no attribute 'split'"

  type Table = seq<seq<string>>

  /** Each row's cells joined by ",". */
  function RowTexts(table: Table): seq<string>
  {
    seq(|table|, k requires 0 <= k < |table| => Join(table[k], ","))
  }

  /** The table as text: comma-joined cells, newline-joined rows. */
  function SerializeTable(table: Table): string
  {
    Join(RowTexts(table), "\n")
  }

  /** Reading table text back: split on "\n", then each line on ",". */
  function ParseTable(s: string): Table
  {
    var lines := Split(s, '\n');
    seq(|lines|, k requires 0 <= k < |lines| => Split(lines[k], ','))
  }

  /** Serialisation loses nothing when the table and its rows are non-empty and no
      cell holds a separator. */
  lemma SerializeTableRoundTrip(table: Table)
    requires |table| > 0
    requires forall r :: 0 <= r < |table| ==> |table[r]| > 0
    requires forall r, k :: 0 <= r < |table| && 0 <= k < |table[r]| ==>
               ',' !in table[r][k] && '\n' !in table[r][k]
    ensures ParseTable(SerializeTable(table)) == table
  {
    var rows := RowTexts(table);
    forall r | 0 <= r < |rows| ensures '\n' !in rows[r] && Split(rows[r], ',') == table[r] {
      JoinAvoids(table[r], ",", '\n');
      SplitJoin(table[r], ',');
    }
    SplitJoin(rows, '\n');
  }

  /** An empty table and a table of one empty row both read back as one empty cell. */
  lemma SerializeTableAmbiguous()
    ensures ParseTable(SerializeTable([])) == [[""]]
    ensures ParseTable(SerializeTable([[]])) == [[""]]
  {
    assert SerializeTable([]) == "";
    assert RowTexts([[]]) == [""];
    assert SerializeTable([[]]) == "";
  }

  /** `response.choices[0].message.content.split("\n") or []`. */
  function ReplyLines(c: Completion): Result<seq<string>>
  {
    if |c.choices| == 0 then Err(IndexErrorMessage)
    else match c.choices[0].message.content
      case None => Err(NoneSplitMessage)
      case Some(text) => var lines := Split(text, '\n'); Ok(if lines == [] then [] else lines)
  }

  /** A usable reply has one line more than it has newlines, so it is never empty (the
      `or []` never applies), and joining the lines with "\n" gives the reply back. */
  lemma ReplyLinesShape(c: Completion)
    requires ReplyLines(c).Ok?
    ensures |c.choices| > 0 && c.choices[0].message.content.Some?
    ensures var text := c.choices[0].message.content.value;
            var lines := ReplyLines(c).value;
            |lines| == Occurrences(text, '\n') + 1 && Join(lines, "\n") == text
  {
    var text := c.choices[0].message.content.value;
    SplitShape(text, '\n');
    JoinSplit(text, '\n');
  }

  /** An element of `content_parts`: a string, or the list a successful verbalization returns. */
  datatype Part = Str(s: string) | List(items: seq<string>)

  /** `verbalize_table`: the reply's lines on success; the serialised table when the call
      raises or its reply has no first choice or no content. */
  function VerbalizeTable(client: OpenAI, context: string, table: Table): (p: Part)
    ensures p.Str? ==> p.s == SerializeTable(table)
    ensures p.List? <==>
      var reply := client.complete(TableVerbalization(context, SerializeTable(table)));
      reply.Ok? && ReplyLines(reply.value).Ok?
    ensures p.List? ==>
      var reply := client.complete(TableVerbalization(context, SerializeTable(table))).value;
      p.items == ReplyLines(reply).value
      && Join(p.items, "\n") == reply.choices[0].message.content.value
  {
    var tableText := SerializeTable(table);
    match client.complete(TableVerbalization(context, tableText))
    case Err(_) => Str(tableText)
    case Ok(reply) =>
      match ReplyLines(reply)
      case Err(_) => Str(tableText)
      case Ok(lines) => ReplyLinesShape(reply); List(lines)
  }

  /** `create_chunks`: one chunk-synthesis call; its reply's lines, or its error. */
  function CreateChunks(client: OpenAI, data: string): (r: Result<seq<string>>)
    ensures client.complete(ChunkSynthesis(data)).Err? ==>
              r == Err(client.complete(ChunkSynthesis(data)).message)
    ensures var reply := client.complete(ChunkSynthesis(data));
            (r.Ok? <==> reply.Ok? && ReplyLines(reply.value).Ok?)
            && (reply.Ok? ==> r == ReplyLines(reply.value))
    ensures r.Ok? ==>
              var reply := client.complete(ChunkSynthesis(data));
              reply.Ok? && |reply.value.choices| > 0 && reply.value.choices[0].message.content.Some?
              && var text := reply.value.choices[0].message.content.value;
                 |r.value| == Occurrences(text, '\n') + 1 && Join(r.value, "\n") == text
  {
    match client.complete(ChunkSynthesis(data))
    case Err(m) => Err(m)
    case Ok(reply) =>
      var lines := ReplyLines(reply);
      if lines.Ok? then ReplyLinesShape(reply); lines else lines
  }

  /** `"\n".join(lines) if lines else ""`. */
  function TextBlock(lines: Option<seq<string>>): string
  {
    if lines.Some? && |lines.value| > 0 then Join(lines.value, "\n") else ""
  }

  /** `filter(None, parts)`: the non-empty strings, in order. */
  function DropEmpty(parts: seq<string>): (r: seq<string>)
    ensures forall k :: 0 <= k < |r| ==> r[k] != ""
  {
    if |parts| == 0 then []
    else (if parts[0] == "" then [] else [parts[0]]) + DropEmpty(parts[1..])
  }

  lemma DropEmptyPair(a: string, b: string)
    ensures DropEmpty([a, b]) == (if a == "" then [] else [a]) + (if b == "" then [] else [b])
  {
    assert [a, b][1..] == [b];
    assert [b][1..] == [];
    assert DropEmpty([]) == [];
    assert DropEmpty([b]) == (if b == "" then [] else [b]) + DropEmpty([]);
    assert DropEmpty([a, b]) == (if a == "" then [] else [a]) + DropEmpty([b]);
  }

  function PreText(d: FinancialDocument): string { TextBlock(d.preText) }
  function PostText(d: FinancialDocument): string { TextBlock(d.postText) }

  /** The context given to table verbalization. */
  function TableContext(d: FinancialDocument): (context: string)
    ensures context == if PreText(d) == "" then PostText(d)
                       else if PostText(d) == "" then PreText(d)
                       else PreText(d) + "\n" + PostText(d)
  {
    DropEmptyPair(PreText(d), PostText(d));
    var parts := DropEmpty([PreText(d), PostText(d)]);
    assert |parts| == 2 ==> parts[1..] == [PostText(d)];
    assert Join([PostText(d)], "\n") == PostText(d);
    assert |parts| == 1 ==> Join(parts, "\n") == parts[0];
    Join(parts, "\n")
  }

  /** `if document.table:` — present and not the empty list. */
  predicate HasTable(d: FinancialDocument)
  {
    d.table.Some? && |d.table.value| > 0
  }

  /** `content_parts` once assembled: pre-text, table text, post-text, each when present. */
  function ContentParts(client: OpenAI, d: FinancialDocument): seq<Part>
  {
    (if PreText(d) != "" then [Str(PreText(d))] else [])
    + (if HasTable(d) then [VerbalizeTable(client, TableContext(d), d.table.value)] else [])
    + (if PostText(d) != "" then [Str(PostText(d))] else [])
  }

  /** Index of the first list in `parts`, or `|parts|` when there is none. */
  function FirstList(parts: seq<Part>): (k: nat)
    ensures k <= |parts|
    ensures forall j :: 0 <= j < k ==> parts[j].Str?
    ensures k < |parts| ==> parts[k].List?
  {
    if |parts| == 0 then 0 else if parts[0].List? then 0 else 1 + FirstList(parts[1..])
  }

  /** `" ".join(parts)`, which raises a TypeError naming the first list element. */
  function JoinParts(parts: seq<Part>): (r: Result<string>)
    ensures r.Ok? <==> forall j :: 0 <= j < |parts| ==> parts[j].Str?
  {
    var k := FirstList(parts);
    if k < |parts| then Err("sequence item " + Decimal(k) + ": expected str instance, list found")
    else Ok(Join(seq(|parts|, j requires 0 <= j < |parts| && parts[j].Str? => parts[j].s), " "))
  }

  /** What `create_chunk` returns and the completion requests it makes, in order. */
  datatype ChunkRun = ChunkRun(chunks: Result<seq<string>>, requests: seq<Request>)

  function ChunkDocument(client: OpenAI, d: FinancialDocument): ChunkRun
  {
    var tableRequests :=
      if HasTable(d) then [TableVerbalization(TableContext(d), SerializeTable(d.table.value))] else [];
    match JoinParts(ContentParts(client, d))
    case Err(m) => ChunkRun(Err(m), tableRequests)
    case Ok(full) => ChunkRun(CreateChunks(client, full), tableRequests + [ChunkSynthesis(full)])
  }

  /** `create_chunk`: builds the content parts step by step, joins them and asks for chunks. */
  method CreateChunk(client: OpenAI, d: FinancialDocument)
    returns (chunks: Result<seq<string>>, requests: seq<Request>)
    ensures ChunkRun(chunks, requests) == ChunkDocument(client, d)
  {
    var preText := TextBlock(d.preText);
    var postText := TextBlock(d.postText);
    var context := Join(DropEmpty([preText, postText]), "\n");
    requests := [];
    var parts: seq<Part> := [];
    assert context == TableContext(d);
    if preText != "" {
      parts := parts + [Str(preText)];
    }
    assert parts == (if PreText(d) != "" then [Str(PreText(d))] else []);
    ghost var head := parts;
    if d.table.Some? && |d.table.value| > 0 {
      var tableText := VerbalizeTable(client, context, d.table.value);
      requests := requests + [TableVerbalization(context, SerializeTable(d.table.value))];
      parts := parts + [tableText];
    }
    assert parts == head + (if HasTable(d) then [VerbalizeTable(client, TableContext(d), d.table.value)] else []);
    ghost var middle := parts;
    if postText != "" {
      parts := parts + [Str(postText)];
    }
    assert parts == middle + (if PostText(d) != "" then [Str(PostText(d))] else []);
    assert parts == ContentParts(client, d);
    assert requests == if HasTable(d) then [TableVerbalization(TableContext(d), SerializeTable(d.table.value))] else [];
    var full := JoinParts(parts);
    if full.Err? {
      chunks := Err(full.message);
      return;
    }
    requests := requests + [ChunkSynthesis(full.value)];
    chunks := CreateChunks(client, full.value);
  }

  /** Without a table the content is the non-empty pre- and post-text joined by one space,
      and exactly one chunk-synthesis request is made, whose result is returned as is. */
  lemma ChunkWithoutTable(client: OpenAI, d: FinancialDocument)
    requires !HasTable(d)
    ensures var full := Join(DropEmpty([PreText(d), PostText(d)]), " ");
            ChunkDocument(client, d) == ChunkRun(CreateChunks(client, full), [ChunkSynthesis(full)])
  {
    var parts := ContentParts(client, d);
    var strs := seq(|parts|, j requires 0 <= j < |parts| && parts[j].Str? => parts[j].s);
    DropEmptyPair(PreText(d), PostText(d));
    assert strs == DropEmpty([PreText(d), PostText(d)]);
  }

  /** When verbalization falls back, the serialised table stands between the non-empty pre-
      and post-text, joined by single spaces; two requests are made, the table one first. */
  lemma ChunkWithTableFallback(client: OpenAI, d: FinancialDocument)
    requires HasTable(d)
    requires VerbalizeTable(client, TableContext(d), d.table.value).Str?
    ensures var tableText := SerializeTable(d.table.value);
            var full := Join(DropEmpty([PreText(d)]) + [tableText] + DropEmpty([PostText(d)]), " ");
            ChunkDocument(client, d) ==
              ChunkRun(CreateChunks(client, full),
                       [TableVerbalization(TableContext(d), tableText), ChunkSynthesis(full)])
  {
    var parts := ContentParts(client, d);
    var strs := seq(|parts|, j requires 0 <= j < |parts| && parts[j].Str? => parts[j].s);
    assert strs == DropEmpty([PreText(d)]) + [SerializeTable(d.table.value)] + DropEmpty([PostText(d)]);
  }

  /** When verbalization succeeds its list reaches the space-join, which raises: the
      document yields a TypeError and no chunk-synthesis request is made. */
  lemma ChunkWithTableRaises(client: OpenAI, d: FinancialDocument)
    requires HasTable(d)
    requires VerbalizeTable(client, TableContext(d), d.table.value).List?
    ensures ChunkDocument(client, d) ==
      ChunkRun(Err("sequence item " + (if PreText(d) == "" then "0" else "1")
                   + ": expected str instance, list found"),
               [TableVerbalization(TableContext(d), SerializeTable(d.table.value))])
  {
    var parts := ContentParts(client, d);
    var k := if PreText(d) == "" then 0 else 1;
    assert parts[k].List?;
    assert FirstList(parts) == k by {
      if k == 1 { assert parts[1..][0].List?; }
    }
  }

  /** `embed`: the first embedding of the response, or the error. */
  function Embed(client: OpenAI, text: string): (r: Result<Vector>)
    ensures r.Ok? <==> client.embed(text).Ok? && |client.embed(text).value| > 0
    ensures r.Ok? ==> r.value == client.embed(text).value[0]
    ensures client.embed(text).Err? ==> r == Err(client.embed(text).message)
    ensures client.embed(text) == Ok([]) ==> r == Err(IndexErrorMessage)
  {
    match client.embed(text)
    case Err(m) => Err(m)
    case Ok(data) => if |data| == 0 then Err(IndexErrorMessage) else Ok(data[0])
  }

  /** The normalised chat-completion dictionary. */
  datatype ChoiceView = ChoiceView(index: nat, role: string, content: Option<string>,
                                   finishReason: string)
  datatype ChatResponse = ChatResponse(id: string, objectType: string, created: int, model: string,
                                       choices: seq<ChoiceView>, usage: Usage)

  /** `chat_completion`: one request; exactly one choice (index 0, from the reply's first
      choice) and every other field copied, or the error. */
  function ChatCompletion(client: OpenAI, messages: seq<Message>, temperature: Option<real>)
    : (r: Result<ChatResponse>)
    ensures var reply := client.complete(Conversation(messages, temperature));
            (r.Ok? <==> reply.Ok? && |reply.value.choices| > 0)
            && (reply.Err? ==> r == Err(reply.message))
            && (reply.Ok? && |reply.value.choices| == 0 ==> r == Err(IndexErrorMessage))
            && (r.Ok? ==>
                  var c := reply.value;
                  r.value.objectType == "chat.completion"
                  && r.value.id == c.id && r.value.created == c.created && r.value.model == c.model
                  && r.value.choices == [ChoiceView(0, c.choices[0].message.role,
                                                    c.choices[0].message.content,
                                                    c.choices[0].finishReason)]
                  && r.value.usage == c.usage)
  {
    match client.complete(Conversation(messages, temperature))
    case Err(m) => Err(m)
    case Ok(c) =>
      if |c.choices| == 0 then Err(IndexErrorMessage)
      else
        var first := c.choices[0];
        Ok(ChatResponse(c.id, "chat.completion", c.created, c.model,
                        [ChoiceView(0, first.message.role, first.message.content, first.finishReason)],
                        Usage(c.usage.promptTokens, c.usage.completionTokens, c.usage.totalTokens)))
  }
}
