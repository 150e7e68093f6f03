/** The configuration the services read, with the defaults the property
    classes declare. Properties the core never reads are omitted. */
module Config {

  /** `query.*` properties, used by plain retrieval. */
  datatype QueryProperties = QueryProperties(topKDefault: int, topKMax: int, similarityThreshold: real)

  /** `rag.*` properties, used by answering and streaming. */
  datatype RagProperties = RagProperties(
    topKDefault: int,
    topKMax: int,
    similarityThreshold: real,
    streamingEnabled: bool,
    maxContextDocuments: int)

  /** `ingest.*` properties. */
  datatype IngestProperties = IngestProperties(chunkSize: int, chunkOverlap: int, maxTextLength: int)

  const DefaultQueryProperties := QueryProperties(5, 10, 0.6)
  const DefaultRagProperties := RagProperties(5, 10, 0.6, true, 8)
  const DefaultIngestProperties := IngestProperties(800, 200, 20000)
}
