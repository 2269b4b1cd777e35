# LeakProof RAG retrieval engine

This Dafny project models the retrieval-and-prompt engine of the LeakProof Drive
question-answering system. It covers the `LeakProofRAG` class and its subclass
`AdvancedLeakProofRAG`.

The engine keeps two lists side by side: `chunks` (the text records of the corpus) and
`embeddings` (one vector per chunk, from an embedding provider). A query works in four steps:

- the query text is embedded;
- every stored vector is scored against the query vector;
- the hits are sorted by descending score and the first `top_k` are kept;
- a prompt is built from numbered `[Source n]` blocks and sent to a completion provider.

The history variant also replays the last three question/answer turns in the prompt. It
then appends the new turn to a history that is never trimmed. Both lists can be saved to
an index file and loaded back.

Modules, one per component:

- `RagTypes` (rag_types.dfy): the records (chunk, scored chunk, message, provider requests,
  query result / history turn), the error cases and `Result`.
- `Corpus` (corpus.dfy): the thirteen built-in chunks.
- `Text` (text.dfy): decimal rendering of numbers and `sep.join`.
- `Ranking` (ranking.dfy): the scan, the stable descending sort, the Python prefix slice and
  their properties.
- `Prompt` (prompt.dfy): the context blocks and the response prompt templates.
- `Persistence` (persistence.dfy): the index file and the file system, modelled as a map
  from path to stored document.
- `LeakProofRag` (leakproof_rag.dfy): the engine class `Rag`.
- `AdvancedRag` (advanced_rag.dfy): the history engine class `HistoryRag` and its prompt builder.

The embedding provider, the completion provider and the similarity score are closures
(`EmbeddingRequest -> seq<Vec>`, `ChatRequest -> string`, `(Vec, Vec) -> real`) given to
the engine's constructor. So every property holds for any provider and any score function.

The search is specified by an index ranking (`Ranking.RankFrom`) that orders indices by
higher score first and, on equal scores, by lower index. Python's stable
`sort(key=..., reverse=True)` is modelled as an insertion sort on the hit records
(`Ranking.SortBySimilarityDesc`). `Ranking.SortScanned` proves the two agree.

The code differs from what one might expect in these points; the model follows the code:

- `top_k` is not clamped. It is applied as Python's `[:top_k]`: 0 gives no hits, and a
  negative value drops that many hits from the end.
- An empty index gives an empty result, not an error.
- There is no zero-norm policy. The score function is abstract and total.
- `create_embeddings` stores whatever the provider returns, with no count check.
- `load_index` does no count check. If the file has `"chunks"` but no `"embeddings"`,
  the chunks are replaced before the error, so the two lists can go out of step.
- The history is never evicted. Only the prompt reads a window of three turns.

## Model

| member | source | states |
|---|---|---|
| LeakProofRag.Rag.constructor | leakproof_rag.py:20-24 | a new engine holds the given providers and two empty lists |
| Corpus.CreateChunks | leakproof_rag.py:35-160 | the corpus has 13 chunks, and every chunk's metadata has a "section" key |
| Corpus.ChunkIds | leakproof_rag.py:39-145 | the list of the 13 chunk ids, in corpus order |
| Corpus.ChunkIdsDistinct | leakproof_rag.py:39-145 | no two chunk ids are equal |
| Corpus.CorpusIds | leakproof_rag.py:35-160 | chunk i of the corpus has id i of that list, so the corpus ids are pairwise distinct |
| LeakProofRag.Rag.LoadDocument | leakproof_rag.py:26-33 | the chunks become exactly the built corpus; the vectors are unchanged |
| LeakProofRag.Rag.CreateEmbeddings | leakproof_rag.py:162-173 | the vectors are the provider's answer to one request holding every chunk text in chunk order; the chunks are unchanged; one vector per text gives equal counts |
| LeakProofRag.Rag.RetrieveRelevantChunks | leakproof_rag.py:181-201 | the result is the ranked prefix of the spec function; it fails exactly when the query embedding response is empty or there are fewer chunks than vectors; a non-negative top_k gives min(top_k, n) hits; the fields are not modified |
| Ranking.RankFrom | leakproof_rag.py:199-200 | the ranking lists every stored index exactly once, each ahead of every later one by higher score or, on equal scores, lower index |
| Ranking.InsertIndexOrdered | leakproof_rag.py:200 | inserting an index smaller than all ranked ones keeps the ranking ordered |
| Ranking.InsertItemsAt | leakproof_rag.py:200 | one insertion step on the hit records matches the same step on their indices |
| Ranking.SortScanned | leakproof_rag.py:191-200 | stably sorting the scanned hit list by descending similarity yields the hits in ranking order |
| Ranking.TopKLength | leakproof_rag.py:201 | the prefix has min(top_k, n) hits for top_k >= 0 and max(0, n + top_k) for a negative top_k; an empty index gives no hits |
| Ranking.TopKCoupling | leakproof_rag.py:191-197 | hit j pairs chunk R[j] with the score of vector R[j], and the ranked indices are distinct |
| Ranking.TopKOrder | leakproof_rag.py:200 | hits are in non-increasing score order, and equal scores keep ascending original index |
| Ranking.TopKMaximal | leakproof_rag.py:199-201 | every omitted vector scores no higher than every returned hit |
| Ranking.RankingExample | leakproof_rag.py:199-201 | scores 1, 0 and 0.994 rank as indices 0, 2, 1 |
| Ranking.TieExample | leakproof_rag.py:200 | three equal scores keep their original order |
| Text.NatToString | leakproof_rag.py:207 | the rendered number is non-empty decimal digits with no leading zero |
| Text.ParseNatToString | leakproof_rag.py:207 | reading a rendered number back gives the number |
| Text.NatToStringInjective | leakproof_rag.py:207 | distinct numbers render differently |
| Text.OffsetStep | leakproof_rag.py:206 | consecutive part offsets differ by one part and one separator |
| Text.JoinLength | leakproof_rag.py:206 | the last joined part ends where the joined string ends |
| Text.JoinPartAt | leakproof_rag.py:206 | each part sits, whole, at its offset in the joined string |
| Text.JoinSeparatorAt | leakproof_rag.py:206 | the separator sits between each part and the next |
| Prompt.ContextShape | leakproof_rag.py:205-209 | block i of the context is "[Source i+1]:\n" plus hit i's text, in retrieval order, with "\n\n" between blocks and nothing after the last |
| Prompt.SourceLabelsDistinct | leakproof_rag.py:207 | two different source numbers give different labels |
| Prompt.UserPromptShape | leakproof_rag.py:223-231 | the user prompt is the header, the whole context, the question label, the whole question and the closing line, in that order |
| Prompt.UserPromptInjective | leakproof_rag.py:223-231 | for a fixed context, the user prompt determines the question |
| LeakProofRag.ResponseRequestFields | leakproof_rag.py:203-244 | `generate_response` sends one completion request: model "gpt-4o-mini", exactly the system instruction then the user prompt over the joined context, temperature 0.3, at most 800 tokens |
| LeakProofRag.QueryOutcomeCases | leakproof_rag.py:246-267 | a query succeeds exactly when the search succeeds and, with sources shown, every hit has a section; it returns the input question and the hits unchanged, answered by the two-message prompt [system, user] |
| LeakProofRag.Rag.Query | leakproof_rag.py:246-267 | the result equals the query outcome of the search result, including the missing-"section" failure |
| LeakProofRag.QuerySourcesBound | leakproof_rag.py:251-266 | with top_k >= 0 a successful query cites exactly min(top_k, n) sources, so at most top_k |
| LeakProofRag.CorpusHitsHaveSections | leakproof_rag.py:253-257 | over the built corpus every hit has a section, so listing sources cannot fail |
| LeakProofRag.Rag.SaveIndex | leakproof_rag.py:269-277 | the file at the path becomes a document holding both lists; other files are unchanged |
| LeakProofRag.Rag.LoadIndex | leakproof_rag.py:279-285 | the status and the two new fields are those of the load effect on the old fields |
| Persistence.SaveLoadRoundTrip | leakproof_rag.py:269-285 | loading the document just saved restores both lists exactly |
| Persistence.LoadCases | leakproof_rag.py:279-285 | loading succeeds exactly when the file exists with both keys, and then replaces both fields; a failure never changes the vectors, and changes the chunks only when "embeddings" is missing |
| LeakProofRag.SaveAndReload | test_rag.py:96-113 | a fresh engine that loads the saved file holds the same chunks and vectors |
| AdvancedRag.HistoryRag.constructor | advanced_example.py:13-15 | a new history engine has an empty history and a fresh base engine with empty lists |
| AdvancedRag.WindowIsLastTurns | advanced_example.py:41 | the window is the last min(3, n) turns, oldest first |
| AdvancedRag.WindowExample | advanced_example.py:41 | after five turns the window is turns 3 to 5; two turns give both |
| AdvancedRag.HistoryMessagesLength | advanced_example.py:41-43 | the replayed turns give exactly 2 messages each |
| AdvancedRag.HistoryMessagesAt | advanced_example.py:41-43 | the messages of turn j are the user question and then the assistant answer, at positions 2j and 2j+1, so turns keep their order |
| AdvancedRag.HistoryMessagesAppend | advanced_example.py:41-43 | replaying one more turn appends its question and answer messages |
| AdvancedRag.BuildMessages | advanced_example.py:29-55 | with history replayed: system, one question/answer pair per window turn, final prompt, 2 + 2·min(3, n) messages; otherwise exactly [system, final prompt] |
| AdvancedRag.HistorySearchSize | advanced_example.py:21 | the history query's search yields min(3, n) hits |
| AdvancedRag.HistoryRag.QueryWithHistory | advanced_example.py:17-78 | searches with top_k 3 and asks with the history prompt; appends exactly one turn, equal to the returned result, leaving earlier turns unchanged; a failed search leaves the history unchanged |
| AdvancedRag.HistoryRag.CompareSpecifications | advanced_example.py:80-84 | the answer of a query with the comparison template and top_k 5 |
| AdvancedRag.HistoryRag.GetRecommendations | advanced_example.py:86-90 | the answer of a query with the suitability template and top_k 4 |
| AdvancedRag.HistoryRag.GetAllPerformanceData | advanced_example.py:98-102 | the result of the fixed performance query with top_k 6: its question is that query and it cites at most six sources |

## Left out

- The OpenAI client is not modelled. Embedding and completion are closures given to the
  constructor. Network, authentication and quota failures of those calls are not modelled.
  An empty `choices` list in the completion response is not modelled either.
- The API-key lookup from the environment and the `ValueError` in `__init__` are not
  modelled. They are environment access.
- `cosine_similarity` is not modelled. Its numpy float arithmetic, square root and
  division are replaced by an abstract real-valued score. So the NaN from a zero-norm vector,
  and how it sorts, are not modelled.
- A length mismatch between the query vector and a stored vector makes `np.dot` raise
  `ValueError` (leakproof_rag.py:177-179, reached from line 193). The abstract score is
  total, so this failure is not modelled.
- JSON encoding is not modelled. The index file is a typed document with an optional value
  per key. Files of another shape are not modelled, nor are write failures. Floats are
  assumed to round-trip exactly.
- `export_conversation` is not modelled. It only writes the history to a file.
- `print` output, `main`, its interactive loop and the `demo_*` functions are not modelled.
  In `query`, only the `"section"` lookup of the source listing is kept, because it can raise.
- The PDF path given to `load_document` is ignored, as in the source.
- Inheritance is not modelled. `AdvancedLeakProofRAG` extends `LeakProofRAG`; here
  `HistoryRag` holds a base engine `rag` instead, because the model has no subclassing.
- LeakProofRag.Rag.CreateEmbeddings: it states that the stored vectors are the provider's
  answer to one request for the whole batch. It does not count provider calls.
- app.py, app_gradio.py and simple_example.py are not part of this model. They are UI and
  demo scripts.
