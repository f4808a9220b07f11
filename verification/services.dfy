/** The external capabilities the pipeline calls: the OpenAI client (chat completions and
    embeddings) and the Qdrant client (upsert and search). They are values of function
    type, so a model can call them but says nothing about what they answer. */
module Services {
  import opened Wrappers
  import opened Documents

  /** An embedding (floats read as exact reals). */
  type Vector = seq<real>

  /** A role-tagged chat message. */
  datatype Message = Message(role: string, content: string)

  /** The three kinds of chat-completion request the code sends (all to "gpt-4o-mini"):
      table verbalization and chunk synthesis at temperature 0.3 with their fixed system
      prompts, and the question-answering conversation at the caller's temperature. */
  datatype Request =
    | TableVerbalization(context: string, table: string)
    | ChunkSynthesis(data: string)
    | Conversation(messages: seq<Message>, temperature: Option<real>)

  /** The parts of a chat-completion response the code reads. */
  datatype ReplyMessage = ReplyMessage(role: string, content: Option<string>)
  datatype Choice = Choice(message: ReplyMessage, finishReason: string)
  datatype Usage = Usage(promptTokens: nat, completionTokens: nat, totalTokens: nat)
  datatype Completion = Completion(id: string, created: int, model: string,
                                   choices: seq<Choice>, usage: Usage)

  /** The OpenAI client: a completion for a request, or the list `response.data` of
      embeddings for a text (model "text-embedding-ada-002"); either may raise. */
  datatype OpenAI = OpenAI(complete: Request -> Result<Completion>,
                           embed: string -> Result<seq<Vector>>)

  /** A point of the vector index: a fresh id, a vector and its payload. */
  datatype Point = Point(id: nat, vector: Vector, payload: map<string, Json>)

  /** A similarity search: query vector, result limit, score threshold, payload fields. */
  datatype SearchQuery = SearchQuery(vector: Vector, limit: nat, scoreThreshold: real,
                                     fields: seq<string>)

  /** The Qdrant client: upsert points into a collection, and search a collection,
      yielding the `text` payloads of the hits in rank order; either may raise. */
  datatype Qdrant = Qdrant(upsert: (string, seq<Point>) -> Outcome,
                           search: (string, SearchQuery) -> Result<seq<string>>)

  /** One call into a capability, as recorded in a trace. */
  datatype Call =
    | LlmCall(request: Request)
    | EmbedCall(text: string)
    | UpsertCall(collection: string, points: seq<Point>)
    | SearchCall(collection: string, query: SearchQuery)
}
