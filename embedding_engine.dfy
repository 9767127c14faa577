/**
 * The embedding engine: turns chunks into LangChain documents, builds a
 * vector store from them and answers similarity queries against the store
 * it built last. The embedding model, Chroma and its search are foreign:
 * they are the fields of a `VectorIndex` value and the store is an opaque
 * value of type `Store`.
 */
module Embedding {
  import opened Wrappers
  import opened Chunks

  /** A LangChain `Document`: the text to embed and the chunk's metadata. */
  datatype Document = Document(pageContent: string, metadata: Metadata)

  /** One document per chunk, in chunk order, with the chunk's content and metadata. */
  function ToDocuments(chunks: seq<Chunk>): (documents: seq<Document>)
    ensures |documents| == |chunks|
    ensures forall i :: 0 <= i < |chunks| ==>
      documents[i].pageContent == chunks[i].content && documents[i].metadata == chunks[i].metadata
  {
    if chunks == [] then []
    else
      var last := chunks[|chunks| - 1];
      ToDocuments(chunks[..|chunks| - 1]) + [Document(last.content, last.metadata)]
  }

  function ChunkOf(document: Document): Chunk
  {
    Chunk(document.pageContent, document.metadata)
  }

  /** Nothing is lost on the way to documents: mapping each back gives the chunks again. */
  lemma DocumentsRoundTrip(chunks: seq<Chunk>)
    ensures seq(|chunks|, i requires 0 <= i < |chunks| => ChunkOf(ToDocuments(chunks)[i])) == chunks
  {
  }

  /** The foreign vector store operations. */
  datatype VectorIndex<!Store> = VectorIndex(
    // `Chroma.from_documents` with the engine's embedding model; None when
    // it raises (an embedding service error, metadata Chroma refuses)
    fromDocuments: seq<Document> -> Option<Store>,
    // `store.similarity_search(query, k=k)`; None when it raises (the
    // query's embedding fails)
    similaritySearch: (Store, string, int) -> Option<seq<Document>>)

  /** The number of documents retrieved when the caller gives no `k`. */
  const DefaultK: int := 5

  /**
   * `NoDocumentsEmbedded` is the `ValueError` of a retrieval before any
   * store exists; `BuildFailed` stands for the exception a failing
   * `Chroma.from_documents` raises, and `SearchFailed` for the exception
   * a failing `similarity_search` raises.
   */
  datatype EngineError = NoDocumentsEmbedded | BuildFailed | SearchFailed

  class EmbeddingEngine<Store> {
    const index: VectorIndex<Store>
    /** The store built by the last `CreateEmbeddings`; None until the first one. */
    var vectorStore: Option<Store>

    constructor(index: VectorIndex<Store>)
      ensures this.index == index
      ensures vectorStore == None
    {
      this.index := index;
      vectorStore := None;
    }

    /**
     * Builds a store from the chunks, keeps it in place of any earlier one
     * and returns it. A build that fails leaves the earlier store, if any,
     * in place.
     */
    method CreateEmbeddings(chunks: seq<Chunk>) returns (r: Result<Store, EngineError>)
      modifies this
      ensures index.fromDocuments(ToDocuments(chunks)).None? ==>
        r == Failure(BuildFailed) && vectorStore == old(vectorStore)
      ensures index.fromDocuments(ToDocuments(chunks)).Some? ==>
        r == Success(index.fromDocuments(ToDocuments(chunks)).value) && vectorStore == Some(r.value)
    {
      var documents := ToDocuments(chunks);
      var built := index.fromDocuments(documents);
      if built.None? {
        return Failure(BuildFailed);
      }
      vectorStore := built;
      r := Success(vectorStore.value);
    }

    /**
     * Searches the current store; fails when no store has been built yet,
     * and passes on a failing search. The store is left as it was.
     */
    method RetrieveRelevantChunks(query: string, k: int := DefaultK) returns (r: Result<seq<Document>, EngineError>)
      ensures vectorStore.None? ==> r == Failure(NoDocumentsEmbedded)
      ensures vectorStore.Some? && index.similaritySearch(vectorStore.value, query, k).None? ==>
        r == Failure(SearchFailed)
      ensures vectorStore.Some? && index.similaritySearch(vectorStore.value, query, k).Some? ==>
        r == Success(index.similaritySearch(vectorStore.value, query, k).value)
    {
      if vectorStore.None? {
        return Failure(NoDocumentsEmbedded);
      }
      var found := index.similaritySearch(vectorStore.value, query, k);
      if found.None? {
        return Failure(SearchFailed);
      }
      return Success(found.value);
    }

    method GetVectorStore() returns (store: Option<Store>)
      ensures store == vectorStore
    {
      store := vectorStore;
    }
  }

  /**
   * Which store the engine holds over its life cycle: retrieval fails before
   * any store is built. After two builds, `GetVectorStore` returns, and
   * retrieval (with `k` defaulting to 5) searches, the store value the second
   * build returned when it succeeded, and otherwise the first one's, if any.
   * What that store contains is up to the store: the model says nothing of
   * entries an earlier build left in a shared collection.
   */
  method RetrievalAfterRebuild<Store>(index: VectorIndex<Store>, first: seq<Chunk>, second: seq<Chunk>, query: string)
    returns (before: Result<seq<Document>, EngineError>, current: Option<Store>, after: Result<seq<Document>, EngineError>)
    ensures before == Failure(NoDocumentsEmbedded)
    ensures index.fromDocuments(ToDocuments(second)).Some? ==>
      current == index.fromDocuments(ToDocuments(second))
    ensures index.fromDocuments(ToDocuments(second)).None? ==>
      current == index.fromDocuments(ToDocuments(first))
    ensures current.None? ==> after == Failure(NoDocumentsEmbedded)
    ensures current.Some? && index.similaritySearch(current.value, query, DefaultK).None? ==>
      after == Failure(SearchFailed)
    ensures current.Some? && index.similaritySearch(current.value, query, DefaultK).Some? ==>
      after == Success(index.similaritySearch(current.value, query, DefaultK).value)
  {
    var engine := new EmbeddingEngine(index);
    before := engine.RetrieveRelevantChunks(query);
    var _ := engine.CreateEmbeddings(first);
    var _ := engine.CreateEmbeddings(second);
    current := engine.GetVectorStore();
    after := engine.RetrieveRelevantChunks(query);
  }
}
