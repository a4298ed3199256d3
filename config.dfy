/** The configuration values the modelled code reads (config.py). */
module Config {
  const COLLECTION_NAME := "document_embeddings"
  const EMBEDDING_MODEL := "all-MiniLM-L6-v2"
  /** The model name the handlers ask the model server for. */
  const LLM_MODEL := "llama3.1:8b"
  const CHUNK_SIZE := 1000
  const CHUNK_OVERLAP := 200
  const MAX_FILE_SIZE_MB := 10
  /** Number of chunks retrieved per document-mode question. */
  const RETRIEVAL_K := 5
}
