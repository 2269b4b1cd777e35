/** `AdvancedLeakProofRAG`: an engine with a conversation history, the history-aware
    prompt, and three query helpers with fixed templates. */
module AdvancedRag {
  import opened RagTypes
  import opened Ranking
  import opened Prompt
  import opened LeakProofRag

  /** How many past turns `query_with_history` replays (`query_history[-3:]`). */
  const HistoryWindow := 3

  /** The `top_k` of `query_with_history`. */
  const HistoryTopK := 3

  /** The system instruction of `query_with_history`, indentation included. */
  const HistorySystemPrompt :=
    "You are a technical expert assistant specializing in KEITH LeakProof Drive systems. \n" +
    "                Provide accurate, helpful information based on the technical documentation.\n" +
    "                Reference previous questions in the conversation when relevant."

  /** Python's `history[-3:]`. */
  function Window(history: seq<Turn>): seq<Turn>
  {
    history[Max(0, |history| - HistoryWindow)..]
  }

  /** The window is the last `min(3, |history|)` turns, oldest first. */
  lemma WindowIsLastTurns(history: seq<Turn>)
    ensures |Window(history)| == Min(HistoryWindow, |history|)
    ensures forall j :: 0 <= j < |Window(history)| ==>
      Window(history)[j] == history[|history| - |Window(history)| + j]
  {
  }

  /** After five turns the window is turns 3, 4 and 5; with fewer than three turns it is
      all of them. */
  lemma WindowExample(t1: Turn, t2: Turn, t3: Turn, t4: Turn, t5: Turn)
    ensures Window([t1, t2, t3, t4, t5]) == [t3, t4, t5]
    ensures Window([t1, t2]) == [t1, t2]
  {
  }

  /** One user message with the question and one assistant message with the answer per
      turn, oldest turn first. */
  function HistoryMessages(turns: seq<Turn>): seq<Message>
    decreases |turns|
  {
    if turns == [] then []
    else [Message(User, turns[0].question), Message(Assistant, turns[0].answer)] + HistoryMessages(turns[1..])
  }

  lemma {:induction false} HistoryMessagesLength(turns: seq<Turn>)
    ensures |HistoryMessages(turns)| == 2 * |turns|
    decreases |turns|
  {
    if turns != [] {
      HistoryMessagesLength(turns[1..]);
    }
  }

  lemma {:induction false} HistoryMessagesAt(turns: seq<Turn>, j: nat)
    requires j < |turns|
    ensures 2 * j + 1 < |HistoryMessages(turns)|
    ensures HistoryMessages(turns)[2 * j] == Message(User, turns[j].question)
    ensures HistoryMessages(turns)[2 * j + 1] == Message(Assistant, turns[j].answer)
    decreases j
  {
    HistoryMessagesLength(turns);
    if j > 0 {
      HistoryMessagesAt(turns[1..], j - 1);
      assert turns[1..][j - 1] == turns[j];
    }
  }

  /** Whether `query_with_history` replays past turns. */
  predicate ReplaysHistory(history: seq<Turn>, useHistory: bool)
  {
    useHistory && |history| > 0
  }

  /** The message list `query_with_history` sends. */
  function HistoryConversation(history: seq<Turn>, useHistory: bool, userPrompt: string): seq<Message>
  {
    [Message(System, HistorySystemPrompt)]
    + (if ReplaysHistory(history, useHistory) then HistoryMessages(Window(history)) else [])
    + [Message(User, userPrompt)]
  }

  /** Builds the message list by appending, as `query_with_history` does. Replaying the
      history gives the system message, a question/answer pair for each of the last
      `min(3, |history|)` turns in order, and the final prompt; otherwise just the system
      message and the final prompt. */
  method BuildMessages(history: seq<Turn>, useHistory: bool, userPrompt: string) returns (messages: seq<Message>)
    ensures messages == HistoryConversation(history, useHistory, userPrompt)
    ensures |messages| == 2 + (if ReplaysHistory(history, useHistory) then 2 * Min(HistoryWindow, |history|) else 0)
    ensures messages[0] == Message(System, HistorySystemPrompt)
    ensures messages[|messages| - 1] == Message(User, userPrompt)
    ensures ReplaysHistory(history, useHistory) ==>
      forall j :: 0 <= j < Min(HistoryWindow, |history|) ==>
        messages[1 + 2 * j] == Message(User, Window(history)[j].question) &&
        messages[2 + 2 * j] == Message(Assistant, Window(history)[j].answer)
    ensures !ReplaysHistory(history, useHistory) ==>
      messages == [Message(System, HistorySystemPrompt), Message(User, userPrompt)]
  {
    messages := [Message(System, HistorySystemPrompt)];
    if useHistory && |history| > 0 {
      var window := history[Max(0, |history| - HistoryWindow)..];
      var k := 0;
      while k < |window|
        invariant k <= |window|
        invariant messages == [Message(System, HistorySystemPrompt)] + HistoryMessages(window[..k])
      {
        HistoryMessagesAppend(window[..k], window[k]);
        assert window[..k + 1] == window[..k] + [window[k]];
        messages := messages + [Message(User, window[k].question)];
        messages := messages + [Message(Assistant, window[k].answer)];
        k := k + 1;
      }
      assert window[..k] == window;
    }
    messages := messages + [Message(User, userPrompt)];
    WindowIsLastTurns(history);
    HistoryMessagesLength(Window(history));
    forall j | 0 <= j < |Window(history)| {
      HistoryMessagesAt(Window(history), j);
    }
  }

  lemma {:induction false} HistoryMessagesAppend(turns: seq<Turn>, t: Turn)
    ensures HistoryMessages(turns + [t]) ==
      HistoryMessages(turns) + [Message(User, t.question), Message(Assistant, t.answer)]
    decreases |turns|
  {
    if turns != [] {
      assert (turns + [t])[1..] == turns[1..] + [t];
      HistoryMessagesAppend(turns[1..], t);
    } else {
      assert [t][1..] == [];
    }
  }

  /** The completion call of `query_with_history`. */
  function HistoryRequest(history: seq<Turn>, useHistory: bool, question: string,
                          relevant: seq<ScoredChunk>): ChatRequest
  {
    ChatRequest(ChatModel, HistoryConversation(history, useHistory, UserPrompt(Context(relevant), question)),
                Temperature, MaxTokens)
  }

  function CompareQuery(spec1: string, spec2: string): string
  {
    "Compare and contrast: " + spec1 + " versus " + spec2
  }

  function RecommendationQuery(useCase: string): string
  {
    "Based on the specifications, is the LeakProof Drive suitable for " + useCase + "? Explain why or why not."
  }

  const PerformanceQuery := "List all pump flow rates and their corresponding floor speeds and unloading times"

  /** The engine with history. The base engine is a part of it rather than a superclass. */
  class HistoryRag {
    const rag: Rag
    var queryHistory: seq<Turn>

    constructor(embed: EmbeddingRequest -> seq<Vec>, complete: ChatRequest -> string, sim: (Vec, Vec) -> real)
      ensures fresh(rag) && rag.embed == embed && rag.complete == complete && rag.sim == sim
      ensures rag.chunks == [] && rag.embeddings == []
      ensures queryHistory == []
    {
      rag := new Rag(embed, complete, sim);
      queryHistory := [];
    }

    /** `query_with_history`: search with `top_k` 3, ask with the replayed history, then
        append exactly one turn; earlier turns stay as they were and nothing is dropped.
        A failed search raises before the history changes. */
    method QueryWithHistory(question: string, useHistory: bool) returns (r: Result<QueryResult>)
      modifies this
      ensures var searched := Retrieval(rag.chunks, rag.embeddings, rag.embed(QueryEmbeddingRequest(question)),
                                        rag.sim, HistoryTopK);
        (searched.Err? ==> r == Err(searched.error) && queryHistory == old(queryHistory)) &&
        (searched.Ok? ==>
          r == Ok(QueryResult(question,
                              rag.complete(HistoryRequest(old(queryHistory), useHistory, question, searched.value)),
                              searched.value)) &&
          queryHistory == old(queryHistory) + [r.value])
    {
      var retrieved := rag.RetrieveRelevantChunks(question, HistoryTopK);
      if retrieved.Err? {
        return Err(retrieved.error);
      }
      var relevant := retrieved.value;
      var context := Context(relevant);
      var userPrompt := UserPrompt(context, question);
      var messages := BuildMessages(queryHistory, useHistory, userPrompt);
      var answer := rag.complete(ChatRequest(ChatModel, messages, Temperature, MaxTokens));
      queryHistory := queryHistory + [QueryResult(question, answer, relevant)];
      r := Ok(QueryResult(question, answer, relevant));
    }

    /** `compare_specifications`: the answer to the comparison template with `top_k` 5. */
    method CompareSpecifications(spec1: string, spec2: string) returns (r: Result<string>)
      ensures var q := QueryOutcome(Retrieval(rag.chunks, rag.embeddings, rag.embed(QueryEmbeddingRequest(CompareQuery(spec1, spec2))),
                                              rag.sim, 5), rag.complete, CompareQuery(spec1, spec2), true);
        r == (if q.Ok? then Ok(q.value.answer) else Err(q.error))
    {
      var result := rag.Query(CompareQuery(spec1, spec2), 5, true);
      r := if result.Ok? then Ok(result.value.answer) else Err(result.error);
    }

    /** `get_recommendations`: the answer to the suitability template with `top_k` 4. */
    method GetRecommendations(useCase: string) returns (r: Result<string>)
      ensures var q := QueryOutcome(Retrieval(rag.chunks, rag.embeddings, rag.embed(QueryEmbeddingRequest(RecommendationQuery(useCase))),
                                              rag.sim, 4), rag.complete, RecommendationQuery(useCase), true);
        r == (if q.Ok? then Ok(q.value.answer) else Err(q.error))
    {
      var result := rag.Query(RecommendationQuery(useCase), 4, true);
      r := if result.Ok? then Ok(result.value.answer) else Err(result.error);
    }

    /** `get_all_performance_data`: the whole result of the fixed performance query with
        `top_k` 6, which cites at most six sources. */
    method GetAllPerformanceData() returns (r: Result<QueryResult>)
      ensures r == QueryOutcome(Retrieval(rag.chunks, rag.embeddings, rag.embed(QueryEmbeddingRequest(PerformanceQuery)),
                                          rag.sim, 6), rag.complete, PerformanceQuery, true)
      ensures r.Ok? ==> r.value.question == PerformanceQuery && |r.value.sources| <= 6
    {
      r := rag.Query(PerformanceQuery, 6, true);
      QuerySourcesBound(rag.chunks, rag.embeddings, rag.embed(QueryEmbeddingRequest(PerformanceQuery)),
                        rag.sim, rag.complete, PerformanceQuery, 6, true);
    }
  }

  /** The search of `query_with_history` yields `min(3, n)` hits for an index of `n`
      vectors, so a stored turn cites at most three sources. */
  lemma HistorySearchSize(chunks: seq<Chunk>, embeddings: seq<Vec>, queryVectors: seq<Vec>,
                           sim: (Vec, Vec) -> real)
    ensures var s := Retrieval(chunks, embeddings, queryVectors, sim, HistoryTopK);
      s.Ok? ==> |s.value| == Min(HistoryTopK, |embeddings|) <= 3
  {
    if |queryVectors| > 0 && |embeddings| <= |chunks| {
      TopKLength(chunks, Scores(sim, queryVectors[0], embeddings), HistoryTopK);
    }
  }
}
