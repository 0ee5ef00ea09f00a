/**
 * The two retriever factories: a Pinecone vector store queried through
 * Bedrock embeddings, and an Amazon Kendra retriever restricted to English
 * documents. Each factory is modelled by the configuration it builds.
 */
module Retrievers {
  import opened AppConfig

  /** A Kendra attribute filter of the `EqualsTo` kind with a string value. */
  datatype AttributeFilter = EqualsTo(key: string, stringValue: string)

  datatype Retriever =
    | PineconeStore(indexName: string, apiKey: string, environment: string,
                    embeddingRegion: string, textField: string)
    | KendraRetriever(indexId: string, region: string, topK: nat, filter: AttributeFilter)

  /** Region of the Bedrock embedding model; written into the source, not configured. */
  const EmbeddingRegion: string := "us-east-1"

  /** Metadata field of a Pinecone record that holds the document text. */
  const TextField: string := "text"

  /** Number of top-ranked documents the Kendra retriever asks for. */
  const KendraTopK: nat := 3

  /** Only documents whose language code is English are retrieved from Kendra. */
  const EnglishOnly: AttributeFilter := EqualsTo("_language_code", "en")

  /** The Kendra retriever over the configured index, in the configured region. */
  function KendraDocRetriever(s: Settings): (r: Retriever)
    ensures r.KendraRetriever?
    ensures r.indexId == s.kendraIndex && r.region == s.kendraRegion
    ensures r.topK == 3 && r.filter.key == "_language_code" && r.filter.stringValue == "en"
  {
    KendraRetriever(s.kendraIndex, s.kendraRegion, KendraTopK, EnglishOnly)
  }

  /**
   * The Pinecone vector store. The requested index name is overwritten
   * before the index is opened, so the high-school democracy index is
   * opened whatever name the caller asks for.
   */
  function EmbeddingDb(indexName: string, s: Settings): (r: Retriever)
    ensures r.PineconeStore?
    ensures r.indexName == IndexPineconeHsDemocracy
    ensures r.apiKey == s.pineconeApiKey && r.environment == s.pineconeEnv
    ensures r.embeddingRegion == "us-east-1" && r.textField == "text"
  {
    var index := IndexPineconeHsDemocracy;
    PineconeStore(index, s.pineconeApiKey, s.pineconeEnv, EmbeddingRegion, TextField)
  }

  /** The argument of EmbeddingDb has no effect on the store it builds. */
  lemma EmbeddingDbIgnoresIndexName(a: string, b: string, s: Settings)
    ensures EmbeddingDb(a, s) == EmbeddingDb(b, s)
    ensures EmbeddingDb(IndexPineconeAsu, s).indexName != IndexPineconeAsu
  {
  }
}
