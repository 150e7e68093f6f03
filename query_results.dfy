/**
  The domain records a query produces: one `Source` per retrieved chunk,
  the `Citation`s and `ContextSnippet`s of an answer, and the `QueryResult`
  that carries them. Java copies the lists on construction and hands out
  unmodifiable views; as Dafny values they cannot change after
  construction anyway.
*/
module QueryResults {
  import opened Wrappers
  import Uuids

  /** A retrieved chunk. Its fields follow the constructor call of the
      mapper; the snippet is never null there. */
  datatype Source = Source(
    documentId: Option<Uuids.Uuid>,
    title: Option<string>,
    chunkIndex: int,
    snippet: string,
    score: real,
    source: Option<string>,
    tags: seq<string>)

  datatype Citation = Citation(
    documentId: Option<Uuids.Uuid>,
    title: Option<string>,
    chunkIndex: int,
    score: real,
    source: Option<string>,
    tags: seq<string>)

  /** `new Citation(...)`: null tags become an empty list. */
  function NewCitation(documentId: Option<Uuids.Uuid>, title: Option<string>, chunkIndex: int,
                       score: real, source: Option<string>, tags: Option<seq<string>>): (c: Citation)
    ensures tags.None? ==> c.tags == []
    ensures tags.Some? ==> c.tags == tags.value
    ensures c.documentId == documentId && c.title == title && c.chunkIndex == chunkIndex
    ensures c.score == score && c.source == source
  {
    Citation(documentId, title, chunkIndex, score, source, if tags.Some? then tags.value else [])
  }

  datatype ContextSnippet = ContextSnippet(documentId: Option<Uuids.Uuid>, chunkIndex: int, snippet: string)

  datatype QueryResult = QueryResult(
    results: seq<Source>,
    answer: Option<string>,
    sources: seq<Citation>,
    contextUsed: seq<ContextSnippet>,
    latencyMs: int,
    promptTokens: Option<int>,
    completionTokens: Option<int>)

  function OrEmpty<T>(list: Option<seq<T>>): (r: seq<T>)
    ensures list.None? ==> r == []
    ensures list.Some? ==> r == list.value
  {
    if list.Some? then list.value else []
  }

  /** The seven-argument constructor: a null list becomes an empty one. */
  function NewQueryResult(results: Option<seq<Source>>, answer: Option<string>,
                          sources: Option<seq<Citation>>, contextUsed: Option<seq<ContextSnippet>>,
                          latencyMs: int, promptTokens: Option<int>, completionTokens: Option<int>): (r: QueryResult)
    ensures results.None? ==> r.results == []
    ensures results.Some? ==> r.results == results.value
    ensures sources.None? ==> r.sources == []
    ensures sources.Some? ==> r.sources == sources.value
    ensures contextUsed.None? ==> r.contextUsed == []
    ensures contextUsed.Some? ==> r.contextUsed == contextUsed.value
    ensures r.answer == answer && r.latencyMs == latencyMs
    ensures r.promptTokens == promptTokens && r.completionTokens == completionTokens
  {
    QueryResult(OrEmpty(results), answer, OrEmpty(sources), OrEmpty(contextUsed),
                latencyMs, promptTokens, completionTokens)
  }

  /** The two-argument constructor of a plain retrieval result. */
  function NewRetrievalResult(results: Option<seq<Source>>, latencyMs: int): (r: QueryResult)
    ensures r.results == OrEmpty(results) && r.latencyMs == latencyMs
    ensures r.answer.None? && r.sources == [] && r.contextUsed == []
    ensures r.promptTokens.None? && r.completionTokens.None?
  {
    NewQueryResult(results, None, Some([]), Some([]), latencyMs, None, None)
  }
}
