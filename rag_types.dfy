/** Records shared by the retrieval engine, its prompt builders and its index file. */
module RagTypes {

  /** An embedding vector as returned by the embedding provider. */
  type Vec = seq<real>

  /** A retrievable piece of the corpus: a stable id, its text and string metadata. */
  datatype Chunk = Chunk(id: string, text: string, metadata: map<string, string>)

  /** One search hit: the chunk record and the score of its vector against the query. */
  datatype ScoredChunk = ScoredChunk(chunk: Chunk, similarity: real)

  datatype Role = System | User | Assistant

  /** A role-tagged message, the `{"role": ..., "content": ...}` dictionary. */
  datatype Message = Message(role: Role, content: string)

  /** The arguments of one call to the embedding provider. */
  datatype EmbeddingRequest = EmbeddingRequest(model: string, input: seq<string>)

  /** The arguments of one call to the completion provider. */
  datatype ChatRequest = ChatRequest(model: string, messages: seq<Message>, temperature: real, maxTokens: nat)

  /** The dictionary returned by a query; the same record is stored as one turn of the
      conversation history. */
  datatype QueryResult = QueryResult(question: string, answer: string, sources: seq<ScoredChunk>)

  type Turn = QueryResult

  /** The exceptions the modelled code can raise. */
  datatype Error =
    | NoQueryEmbedding          // `data[0]` of an empty embedding response
    | ChunkIndexOutOfRange(index: nat)   // `self.chunks[i]` past the end of `chunks`
    | MissingKey(key: string)   // a dictionary lookup of an absent key
    | FileNotFound(path: string)

  datatype Result<T> = Ok(value: T) | Err(error: Error)

  datatype Option<T> = None | Some(value: T)

  function Min(a: int, b: int): int { if a <= b then a else b }

  function Max(a: int, b: int): int { if a <= b then b else a }
}
