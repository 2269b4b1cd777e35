/** The `LeakProofRAG` engine: the chunk list and the vector list it keeps side by side,
    the batch embedding, the search, the response prompt and the index file. */
module LeakProofRag {
  import opened RagTypes
  import opened Corpus
  import opened Ranking
  import opened Prompt
  import opened Persistence

  const EmbeddingModel := "text-embedding-3-small"
  const ChatModel := "gpt-4o-mini"
  const Temperature: real := 0.3
  const MaxTokens: nat := 800
  const DefaultTopK := 3
  const DefaultIndexPath := "leakproof_index.json"

  /** `[chunk["text"] for chunk in self.chunks]`. */
  function Texts(chunks: seq<Chunk>): seq<string>
  {
    seq(|chunks|, i requires 0 <= i < |chunks| => chunks[i].text)
  }

  function QueryEmbeddingRequest(query: string): EmbeddingRequest
  {
    EmbeddingRequest(EmbeddingModel, [query])
  }

  /** The completion call of `generate_response`. */
  function ResponseRequest(question: string, relevant: seq<ScoredChunk>): ChatRequest
  {
    ChatRequest(ChatModel, ResponseMessages(question, relevant), Temperature, MaxTokens)
  }

  /** `generate_response` makes one completion call: the chat model, the system
      instruction followed by the user prompt over the numbered context, temperature 0.3
      and at most 800 tokens. */
  lemma ResponseRequestFields(question: string, relevant: seq<ScoredChunk>)
    ensures var req := ResponseRequest(question, relevant);
      req.model == "gpt-4o-mini" && req.temperature == 0.3 && req.maxTokens == 800 &&
      |req.messages| == 2 &&
      req.messages[0] == Message(System, SystemPrompt) &&
      req.messages[1] == Message(User, UserPrompt(Context(relevant), question))
  {
  }

  /** Every hit's metadata has the "section" key that the source listing prints. */
  predicate HasSections(relevant: seq<ScoredChunk>)
  {
    forall j :: 0 <= j < |relevant| ==> "section" in relevant[j].chunk.metadata
  }

  /** What `query` returns or raises, given what the search returned or raised. */
  function QueryOutcome(retrieved: Result<seq<ScoredChunk>>, complete: ChatRequest -> string,
                        question: string, showSources: bool): Result<QueryResult>
  {
    match retrieved
    case Err(e) => Err(e)
    case Ok(relevant) =>
      if showSources && !HasSections(relevant) then Err(MissingKey("section"))
      else Ok(QueryResult(question, complete(ResponseRequest(question, relevant)), relevant))
  }

  /** A query succeeds exactly when the search does and, with the source listing on, every
      hit has a section; it then returns the question as asked and the hits unchanged, and
      the answer is the completion of the two-message prompt built from them. */
  lemma QueryOutcomeCases(retrieved: Result<seq<ScoredChunk>>, complete: ChatRequest -> string,
                          question: string, showSources: bool)
    ensures var r := QueryOutcome(retrieved, complete, question, showSources);
      (r.Ok? <==> retrieved.Ok? && (showSources ==> HasSections(retrieved.value))) &&
      (r.Ok? ==>
        r.value.question == question &&
        r.value.sources == retrieved.value &&
        r.value.answer == complete(ResponseRequest(question, r.value.sources))) &&
      (retrieved.Err? ==> r == Err(retrieved.error))
  {
  }

  /** With a non-negative `top_k`, a successful query cites at most `top_k` sources, and
      exactly `min(top_k, n)` of them for an index of `n` vectors. */
  lemma QuerySourcesBound(chunks: seq<Chunk>, embeddings: seq<Vec>, queryVectors: seq<Vec>,
                          sim: (Vec, Vec) -> real, complete: ChatRequest -> string,
                          question: string, k: int, showSources: bool)
    requires k >= 0
    ensures var r := QueryOutcome(Retrieval(chunks, embeddings, queryVectors, sim, k), complete, question, showSources);
      r.Ok? ==> |r.value.sources| == Min(k, |embeddings|) <= k
  {
    if |queryVectors| > 0 && |embeddings| <= |chunks| {
      TopKLength(chunks, Scores(sim, queryVectors[0], embeddings), k);
    }
  }

  /** Over the built corpus every hit has a section, so the source listing never fails. */
  lemma CorpusHitsHaveSections(embeddings: seq<Vec>, queryVectors: seq<Vec>,
                               sim: (Vec, Vec) -> real, k: int)
    ensures var r := Retrieval(CreateChunks(), embeddings, queryVectors, sim, k);
      r.Ok? ==> HasSections(r.value)
  {
    var chunks := CreateChunks();
    if |queryVectors| > 0 && |embeddings| <= |chunks| {
      var scores := Scores(sim, queryVectors[0], embeddings);
      TopKCoupling(chunks, scores, k);
    }
  }

  /** The engine. The two providers and the score function stand for the OpenAI client
      and `cosine_similarity`; they are fixed when the engine is made. */
  class Rag {
    const embed: EmbeddingRequest -> seq<Vec>
    const complete: ChatRequest -> string
    const sim: (Vec, Vec) -> real
    var chunks: seq<Chunk>
    var embeddings: seq<Vec>

    constructor(embed: EmbeddingRequest -> seq<Vec>, complete: ChatRequest -> string, sim: (Vec, Vec) -> real)
      ensures this.embed == embed && this.complete == complete && this.sim == sim
      ensures chunks == [] && embeddings == []
    {
      this.embed := embed;
      this.complete := complete;
      this.sim := sim;
      chunks := [];
      embeddings := [];
    }

    /** Chunk `i` and vector `i` describe the same piece of text. */
    predicate Coupled()
      reads this
    {
      |chunks| == |embeddings|
    }

    /** `load_document`: the path is not read; the chunks become the built corpus. */
    method LoadDocument(pdfPath: string)
      modifies this
      ensures chunks == CreateChunks() && embeddings == old(embeddings)
    {
      chunks := CreateChunks();
    }

    /** `create_embeddings`: one provider call with every chunk text, in chunk order; its
        vectors are stored as returned, with no count check. */
    method CreateEmbeddings()
      modifies this
      ensures chunks == old(chunks)
      ensures embeddings == embed(EmbeddingRequest(EmbeddingModel, Texts(chunks)))
      ensures |embeddings| == |Texts(chunks)| ==> Coupled()
    {
      var texts := Texts(chunks);
      embeddings := embed(EmbeddingRequest(EmbeddingModel, texts));
    }

    /** `retrieve_relevant_chunks`: embed the query, score every stored vector, sort the
        hits by descending score (stably) and keep the first `topK`. */
    method RetrieveRelevantChunks(query: string, topK: int := DefaultTopK) returns (r: Result<seq<ScoredChunk>>)
      ensures r == Retrieval(chunks, embeddings, embed(QueryEmbeddingRequest(query)), sim, topK)
      ensures r.Ok? <==> |embed(QueryEmbeddingRequest(query))| > 0 && |embeddings| <= |chunks|
      ensures r.Ok? && topK >= 0 ==> |r.value| == Min(topK, |embeddings|)
    {
      var response := embed(QueryEmbeddingRequest(query));
      if |response| == 0 {
        return Err(NoQueryEmbedding);
      }
      var queryVector := response[0];
      var similarities: seq<ScoredChunk> := [];
      var i := 0;
      while i < |embeddings|
        invariant i <= |embeddings| && i <= |chunks|
        invariant |similarities| == i
        invariant forall j :: 0 <= j < i ==>
          similarities[j] == ScoredChunk(chunks[j], sim(queryVector, embeddings[j]))
      {
        if i >= |chunks| {
          return Err(ChunkIndexOutOfRange(i));
        }
        similarities := similarities + [ScoredChunk(chunks[i], sim(queryVector, embeddings[i]))];
        i := i + 1;
      }
      if |chunks| < |embeddings| {
        // The loop only finishes when every vector had a chunk.
        assert false;
      }
      var scores := Scores(sim, queryVector, embeddings);
      assert similarities == Scanned(chunks, scores, 0);
      SortScanned(chunks, scores, 0);
      similarities := SortBySimilarityDesc(similarities);
      TopKLength(chunks, scores, topK);
      r := Ok(PrefixSlice(similarities, topK));
    }

    /** `generate_response`: the completion of the two-message prompt. */
    function GenerateResponse(query: string, relevant: seq<ScoredChunk>): string
    {
      complete(ResponseRequest(query, relevant))
    }

    /** `query`: search, list the sources (which reads each hit's "section"), answer. */
    method Query(question: string, topK: int := DefaultTopK, showSources: bool := true) returns (r: Result<QueryResult>)
      ensures r == QueryOutcome(Retrieval(chunks, embeddings, embed(QueryEmbeddingRequest(question)), sim, topK),
                                complete, question, showSources)
    {
      var retrieved := RetrieveRelevantChunks(question, topK);
      if retrieved.Err? {
        return Err(retrieved.error);
      }
      var relevant := retrieved.value;
      if showSources {
        var j := 0;
        while j < |relevant|
          invariant j <= |relevant|
          invariant forall m :: 0 <= m < j ==> "section" in relevant[m].chunk.metadata
        {
          if "section" !in relevant[j].chunk.metadata {
            return Err(MissingKey("section"));
          }
          j := j + 1;
        }
      }
      var answer := GenerateResponse(question, relevant);
      r := Ok(QueryResult(question, answer, relevant));
    }

    /** `save_index`: write both lists, under their keys, to `path`. */
    method SaveIndex(store: FileStore, path: string := DefaultIndexPath)
      modifies store
      ensures store.files == old(store.files)[path := IndexDocument(chunks, embeddings)]
    {
      store.files := store.files[path := IndexDocument(chunks, embeddings)];
    }

    /** `load_index`: read the document at `path` and assign its two lists in turn. */
    method LoadIndex(store: FileStore, path: string := DefaultIndexPath) returns (status: Result<()>)
      modifies this
      ensures LoadOutcome(status, chunks, embeddings) == LoadEffect(store.files, path, old(chunks), old(embeddings))
    {
      if path !in store.files {
        return Err(FileNotFound(path));
      }
      var data := store.files[path];
      if data.chunks.None? {
        return Err(MissingKey("chunks"));
      }
      chunks := data.chunks.value;
      if data.embeddings.None? {
        return Err(MissingKey("embeddings"));
      }
      embeddings := data.embeddings.value;
      status := Ok(());
    }
  }

  /** The save-then-reload check of the test suite: a fresh engine that loads the file
      another engine saved holds the same two lists. */
  method SaveAndReload(rag: Rag, store: FileStore, path: string) returns (rag2: Rag, status: Result<()>)
    modifies store
    ensures fresh(rag2) && status == Ok(())
    ensures rag2.chunks == rag.chunks && rag2.embeddings == rag.embeddings
  {
    rag.SaveIndex(store, path);
    rag2 := new Rag(rag.embed, rag.complete, rag.sim);
    status := rag2.LoadIndex(store, path);
  }
}
