/** The wire records the controllers return. */
module Responses {
  import opened Wrappers
  import Uuids

  datatype QueryResultItem = QueryResultItem(
    documentId: Option<Uuids.Uuid>,
    title: Option<string>,
    chunkIndex: int,
    snippet: string,
    score: real,
    source: Option<string>,
    tags: seq<string>)

  datatype QueryResponse = QueryResponse(results: seq<QueryResultItem>)

  datatype SourceCitation = SourceCitation(
    documentId: Option<Uuids.Uuid>,
    title: Option<string>,
    chunkIndex: int,
    score: real,
    source: Option<string>,
    tags: seq<string>)

  /** `QueryAnswerResponse.ContextSnippet`. */
  datatype AnswerSnippet = AnswerSnippet(documentId: Option<Uuids.Uuid>, chunkIndex: int, snippet: string)

  datatype QueryAnswerResponse = QueryAnswerResponse(
    answer: Option<string>,
    sources: seq<SourceCitation>,
    contextUsed: seq<AnswerSnippet>,
    latencyMs: int,
    promptTokens: Option<int>,
    completionTokens: Option<int>)

  datatype IngestResponse = IngestResponse(documentId: Uuids.Uuid, chunksProcessed: int, tokensCount: int, status: string)
}
