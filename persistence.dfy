/** The index file of `save_index` / `load_index`, with the file system seen as a map from
    path to the JSON document stored there. */
module Persistence {
  import opened RagTypes

  /** The top-level JSON object of an index file; a key the file lacks is `None`. */
  datatype Document = Document(chunks: Option<seq<Chunk>>, embeddings: Option<seq<Vec>>)

  /** The files that `open(path)` can reach. */
  class FileStore {
    var files: map<string, Document>

    constructor(files: map<string, Document>)
      ensures this.files == files
    {
      this.files := files;
    }
  }

  /** The document `save_index` writes: both lists under their keys. */
  function IndexDocument(chunks: seq<Chunk>, embeddings: seq<Vec>): Document
  {
    Document(Some(chunks), Some(embeddings))
  }

  /** The outcome of `load_index` and the engine's two fields after it. */
  datatype LoadOutcome = LoadOutcome(status: Result<()>, chunks: seq<Chunk>, embeddings: seq<Vec>)

  /** `load_index` on an engine holding `chunks` and `embeddings`: a missing file raises
      before anything changes; `data["chunks"]` is assigned before `data["embeddings"]`
      is looked up, so a file without the second key leaves the new chunks beside the old
      vectors. */
  function LoadEffect(files: map<string, Document>, path: string,
                      chunks: seq<Chunk>, embeddings: seq<Vec>): LoadOutcome
  {
    if path !in files then LoadOutcome(Err(FileNotFound(path)), chunks, embeddings)
    else
      match files[path].chunks
      case None => LoadOutcome(Err(MissingKey("chunks")), chunks, embeddings)
      case Some(c) =>
        match files[path].embeddings
        case None => LoadOutcome(Err(MissingKey("embeddings")), c, embeddings)
        case Some(e) => LoadOutcome(Ok(()), c, e)
  }

  /** Loading what was just saved at `path` restores both lists exactly, whatever the
      engine held before. */
  lemma SaveLoadRoundTrip(files: map<string, Document>, path: string, c: seq<Chunk>, e: seq<Vec>,
                          c0: seq<Chunk>, e0: seq<Vec>)
    ensures LoadEffect(files[path := IndexDocument(c, e)], path, c0, e0) == LoadOutcome(Ok(()), c, e)
  {
  }

  /** `load_index` succeeds exactly when the file exists and holds both keys, and then
      replaces both fields with the stored lists; every failure leaves the vectors alone,
      and only the missing-"embeddings" failure changes the chunks. */
  lemma LoadCases(files: map<string, Document>, path: string, c0: seq<Chunk>, e0: seq<Vec>)
    ensures var o := LoadEffect(files, path, c0, e0);
      (o.status.Ok? <==> path in files && files[path].chunks.Some? && files[path].embeddings.Some?) &&
      (o.status.Ok? ==> o.chunks == files[path].chunks.value && o.embeddings == files[path].embeddings.value) &&
      (o.status.Err? ==> o.embeddings == e0) &&
      (o.status.Err? && o.chunks != c0 ==> o.status.error == MissingKey("embeddings"))
  {
  }
}
