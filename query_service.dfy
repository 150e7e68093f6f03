/**
  The retrieval and answering service: it validates a query, clamps `topK`
  and the similarity threshold, asks the vector store for candidates under
  a metadata filter, filters them again in memory, and either maps them to
  sources (query) or builds a context and asks the chat model (answer and
  streamed answer).
*/
module QueryService {
  import opened Wrappers
  import opened JavaText
  import opened Metadata
  import Uuids
  import opened Config
  import opened Collaborators
  import opened QueryRequests
  import opened QueryResults
  import QueryMapper
  import opened Sequences

  const QueryMustNotBeEmpty := "Query must not be empty"
  const UnableToRetrieve := "Unable to retrieve documents"
  const StreamingDisabled := "Streaming is disabled by configuration"
  /** `System.lineSeparator()`, fixed to the Unix separator. */
  const LineSeparator := "\n"

  // ---------------------------------------------------------------------------
  // Request checks and clamping

  /** `validateQueryRequest`: the request must be non-null and its query must have text. */
  function ValidateQueryRequest(request: Option<QueryRequest>): (o: Outcome)
    ensures o.Pass? <==> request.Some? && HasText(request.value.query)
    ensures o.Fail? ==> o.failure == IllegalArgument(QueryMustNotBeEmpty)
  {
    if request.None? || !HasText(request.value.query) then Fail(IllegalArgument(QueryMustNotBeEmpty)) else Pass
  }

  /** The `topK` that `resolveTopK` settles on. */
  function ClampedTopK(requested: Option<int>, defaultTopK: int, maxTopK: int): int {
    var value := if requested.Some? then requested.value else defaultTopK;
    var raised := if value < 1 then 1 else value;
    if raised > maxTopK then maxTopK else raised
  }

  /** `resolveTopK`: the requested value (or the default) raised to 1 and then capped at the maximum. */
  method ResolveTopK(requested: Option<int>, defaultTopK: int, maxTopK: int) returns (value: int)
    ensures value == ClampedTopK(requested, defaultTopK, maxTopK)
    ensures maxTopK >= 1 ==> 1 <= value <= maxTopK
    ensures maxTopK < 1 ==> value == maxTopK
    ensures var wanted := if requested.Some? then requested.value else defaultTopK;
      (1 <= wanted <= maxTopK ==> value == wanted) && (wanted < 1 <= maxTopK ==> value == 1)
      && (wanted > maxTopK ==> value == maxTopK)
  {
    value := if requested.Some? then requested.value else defaultTopK;
    if value < 1 {
      value := 1;
    }
    if value > maxTopK {
      value := maxTopK;
    }
  }

  /** `resolveThreshold`: the requested threshold (or the default) clamped to [0, 1]. */
  function ResolveThreshold(threshold: Option<real>, defaultThreshold: real): (r: real)
    ensures 0.0 <= r <= 1.0
    ensures var wanted := if threshold.Some? then threshold.value else defaultThreshold;
      (0.0 <= wanted <= 1.0 ==> r == wanted) && (wanted < 0.0 ==> r == 0.0) && (wanted > 1.0 ==> r == 1.0)
  {
    var resolved := if threshold.Some? then threshold.value else defaultThreshold;
    if resolved < 0.0 then 0.0 else if resolved > 1.0 then 1.0 else resolved
  }

  /** A request that passed bean validation keeps its own `topK` when it is
      within the maximum and its own threshold. */
  lemma ValidRequestKeepsItsSettings(r: QueryRequest, defaultTopK: int, maxTopK: int, defaultThreshold: real)
    requires Valid(r)
    ensures r.topK.Some? && r.topK.value <= maxTopK ==> ClampedTopK(r.topK, defaultTopK, maxTopK) == r.topK.value
    ensures r.similarityThreshold.Some? ==> ResolveThreshold(r.similarityThreshold, defaultThreshold) == r.similarityThreshold.value
  {
  }

  /** `@NotBlank` (trim, then non-empty) and `hasText` (some non-whitespace
      character) disagree: a query of one Java whitespace character above
      U+0020, such as EN QUAD (U+2000), passes bean validation, since `trim`
      keeps it, but the service rejects it as blank. */
  lemma WideSpaceQueryRejected(c: char)
    requires IsWhitespace(c) && !IsTrimmed(c)
    ensures var wide := QueryRequest(Some([c]), None, None, None, None, None, None);
      Valid(wide) && ValidateQueryRequest(Some(wide)).Fail?
  {
    assert NotBlank(Some([c])) by {
      TrimIdentity([c]);
    }
    assert IsBlank([c]);
  }

  /** EN QUAD is such a character. */
  lemma EnQuadIsWhitespace()
    ensures IsWhitespace('\U{2000}') && !IsTrimmed('\U{2000}')
  {
  }

  /** The other way round: a query of one control character below U+0009
      (see `ControlCharsAreNotWhitespace`) fails bean validation, since `trim`
      removes it, yet it has text for the service. */
  lemma ControlCharQueryAccepted(c: char)
    requires IsTrimmed(c) && !IsWhitespace(c)
    ensures var control := QueryRequest(Some([c]), None, None, None, None, None, None);
      !Valid(control) && ValidateQueryRequest(Some(control)).Pass?
  {
    var q := [c];
    assert TrimStart(q) == "" by {
      assert IsTrimmed(q[0]);
      assert q[1..] == "";
    }
    assert !IsBlank(q) by {
      assert !IsWhitespace(q[0]);
    }
  }

  // ---------------------------------------------------------------------------
  // The store-side filter

  /** The conditions `buildFilterExpression` collects, in its order. */
  function FilterParts(r: QueryRequest): seq<FilterExpr> {
    (if r.documentId.Some? then [Eq("documentId", Uuids.ToString(r.documentId.value))] else [])
    + (if HasText(r.source) then [Eq("source", r.source.value)] else [])
    + (if r.tags.Some? && r.tags.value != [] then [In("tags", r.tags.value)] else [])
  }

  /** The conditions joined by `and`, left to right. */
  function Conjoin(parts: seq<FilterExpr>): FilterExpr
    requires parts != []
  {
    if |parts| == 1 then parts[0] else And(Conjoin(parts[..|parts| - 1]), parts[|parts| - 1])
  }

  /** The filter the request asks the store for; none when it sets no condition. */
  function FilterOf(r: QueryRequest): Option<FilterExpr> {
    if FilterParts(r) == [] then None else Some(Conjoin(FilterParts(r)))
  }

  lemma ConjoinSnoc(parts: seq<FilterExpr>, last: FilterExpr)
    requires parts != []
    ensures Conjoin(parts + [last]) == And(Conjoin(parts), last)
  {
    assert (parts + [last])[..|parts|] == parts;
  }

  /** `buildFilterExpression`. */
  method BuildFilterExpression(r: QueryRequest) returns (filter: Option<FilterExpr>)
    ensures filter == FilterOf(r)
    ensures filter.None? <==> r.documentId.None? && !HasText(r.source) && (r.tags.None? || r.tags.value == [])
  {
    ghost var parts: seq<FilterExpr> := [];
    filter := None;
    if r.documentId.Some? {
      filter := Some(Eq("documentId", Uuids.ToString(r.documentId.value)));
      parts := [filter.value];
    }
    if HasText(r.source) {
      var sourceExpression := Eq("source", r.source.value);
      if filter.Some? {
        ConjoinSnoc(parts, sourceExpression);
        filter := Some(And(filter.value, sourceExpression));
      } else {
        filter := Some(sourceExpression);
      }
      parts := parts + [sourceExpression];
    }
    assert filter.None? <==> parts == [];
    assert filter.Some? ==> filter.value == Conjoin(parts);
    if r.tags.Some? && r.tags.value != [] {
      var tagsExpression := In("tags", r.tags.value);
      if filter.Some? {
        ConjoinSnoc(parts, tagsExpression);
        filter := Some(And(filter.value, tagsExpression));
      } else {
        filter := Some(tagsExpression);
      }
      parts := parts + [tagsExpression];
    }
    assert parts == FilterParts(r);
  }

  /** A document meets the joined conditions exactly when it meets each. */
  lemma {:induction false} ConjoinMatches(parts: seq<FilterExpr>, m: Bag)
    requires parts != []
    ensures Matches(Conjoin(parts), m) <==> forall i :: 0 <= i < |parts| ==> Matches(parts[i], m)
  {
    if |parts| > 1 {
      var init := parts[..|parts| - 1];
      ConjoinMatches(init, m);
      assert forall i :: 0 <= i < |init| ==> init[i] == parts[i];
    }
  }

  // ---------------------------------------------------------------------------
  // The in-memory filter

  /** `parseScore`: a number's `doubleValue`, a string through
      `Double.parseDouble` (0.0 when that throws), 0.0 otherwise. */
  function ParseScore(m: Bag): (score: real)
    ensures "score" in m && IsNumber(m["score"]) ==> score == DoubleValue(m["score"])
    ensures ("score" in m && m["score"].Str? && JavaText.ParseDouble(m["score"].s).Some?)
      ==> score == JavaText.ParseDouble(m["score"].s).value
    ensures score != 0.0 ==> "score" in m && (IsNumber(m["score"]) || (m["score"].Str? && JavaText.ParseDouble(m["score"].s).Some?))
  {
    var value := Get(m, "score");
    if value.Some? && IsNumber(value.value) then DoubleValue(value.value)
    else if value.Some? && value.value.Str? then
      match JavaText.ParseDouble(value.value.s)
      case Some(d) => d
      case None => 0.0
    else 0.0
  }

  /** Where the score is present (and not a blank string) the service and
      the mapper read the same value from it. */
  lemma ScoreAgreesWithMapper(d: VectorDocument)
    requires "score" in d.metadata
    requires d.metadata["score"].Str? ==> HasText(Some(d.metadata["score"].s))
    ensures QueryMapper.SourceOf(d).score == ParseScore(d.metadata)
  {
  }

  /** Without a score, the mapper reports a numeric distance while the
      service reads 0.0, so such a document is never dropped for its score. */
  lemma DistanceIsNotAScore(d: VectorDocument, threshold: real)
    requires "score" !in d.metadata && "distance" in d.metadata && IsNumber(d.metadata["distance"])
    ensures ParseScore(d.metadata) == 0.0 && ScoreAcceptable(ParseScore(d.metadata), threshold)
    ensures QueryMapper.SourceOf(d).score == DoubleValue(d.metadata["distance"])
  {
  }

  predicate DocumentIdMatches(r: QueryRequest, m: Bag) {
    r.documentId.None? || Uuids.ToString(r.documentId.value) == ValueOf(Get(m, "documentId"))
  }

  predicate SourceMatches(r: QueryRequest, m: Bag) {
    !HasText(r.source) || ("source" in m && r.source.value == Show(m["source"]))
  }

  predicate TagsMatch(r: QueryRequest, m: Bag) {
    || r.tags.None? || r.tags.value == []
    || ("tags" in m && m["tags"].ListVal? && ListContainsAll(m["tags"].items, r.tags.value))
  }

  /** Only a positive score below a positive threshold is rejected. */
  predicate ScoreAcceptable(score: real, threshold: real) {
    !(score > 0.0 && threshold > 0.0 && score < threshold)
  }

  /** The document survives `applyFilters`. */
  predicate Keep(d: VectorDocument, r: QueryRequest, threshold: real) {
    && DocumentIdMatches(r, d.metadata)
    && SourceMatches(r, d.metadata)
    && TagsMatch(r, d.metadata)
    && ScoreAcceptable(ParseScore(d.metadata), threshold)
  }

  /** The documents that survive, in their original order. */
  function Filtered(documents: seq<VectorDocument>, r: QueryRequest, threshold: real): (kept: seq<VectorDocument>)
    ensures |kept| <= |documents|
  {
    if documents == [] then []
    else
      var rest := Filtered(documents[..|documents| - 1], r, threshold);
      var last := documents[|documents| - 1];
      if Keep(last, r, threshold) then rest + [last] else rest
  }

  /** `applyFilters`: a null list gives an empty one. */
  method ApplyFilters(documents: Option<seq<VectorDocument>>, r: QueryRequest, threshold: real)
    returns (filtered: seq<VectorDocument>)
    ensures filtered == Filtered(OrEmpty(documents), r, threshold)
  {
    if documents.None? {
      return [];
    }
    var docs := documents.value;
    filtered := [];
    for i := 0 to |docs|
      invariant filtered == Filtered(docs[..i], r, threshold)
    {
      FilteredStep(docs, i, r, threshold);
      var metadata := docs[i].metadata;
      if r.documentId.Some? && Uuids.ToString(r.documentId.value) != ValueOf(Get(metadata, "documentId")) {
        continue;
      }
      if HasText(r.source) {
        var source := Get(metadata, "source");
        if source.None? || r.source.value != Show(source.value) {
          continue;
        }
      }
      if r.tags.Some? && r.tags.value != [] {
        var tagsValue := Get(metadata, "tags");
        if !(tagsValue.Some? && tagsValue.value.ListVal?) || !ListContainsAll(tagsValue.value.items, r.tags.value) {
          continue;
        }
      }
      var score := ParseScore(metadata);
      if score > 0.0 && threshold > 0.0 && score < threshold {
        continue;
      }
      filtered := filtered + [docs[i]];
    }
    assert docs[..|docs|] == docs;
  }

  /** One more document: it is appended exactly when it is kept. */
  lemma FilteredStep(documents: seq<VectorDocument>, i: nat, r: QueryRequest, threshold: real)
    requires i < |documents|
    ensures Filtered(documents[..i + 1], r, threshold)
         == if Keep(documents[i], r, threshold) then Filtered(documents[..i], r, threshold) + [documents[i]]
            else Filtered(documents[..i], r, threshold)
  {
    assert documents[..i + 1][..i] == documents[..i];
  }

  /** A document survives exactly when it was retrieved and meets every condition. */
  lemma {:induction false} FilteredMembers(documents: seq<VectorDocument>, r: QueryRequest, threshold: real)
    ensures forall d :: d in Filtered(documents, r, threshold) <==> d in documents && Keep(d, r, threshold)
  {
    if documents != [] {
      var init := documents[..|documents| - 1];
      FilteredMembers(init, r, threshold);
      assert documents == init + [documents[|documents| - 1]];
    }
  }

  /** Filtering keeps the retrieval order. */
  lemma {:induction false} FilteredIsSubsequence(documents: seq<VectorDocument>, r: QueryRequest, threshold: real)
    ensures IsSubsequence(Filtered(documents, r, threshold), documents)
  {
    if documents != [] {
      var init := documents[..|documents| - 1];
      FilteredIsSubsequence(init, r, threshold);
      var kept := Filtered(documents, r, threshold);
      if Keep(documents[|documents| - 1], r, threshold) {
        assert kept[..|kept| - 1] == Filtered(init, r, threshold);
      }
    }
  }

  /** Filtering twice is filtering once. */
  lemma {:induction false} FilteredIdempotent(documents: seq<VectorDocument>, r: QueryRequest, threshold: real)
    ensures Filtered(Filtered(documents, r, threshold), r, threshold) == Filtered(documents, r, threshold)
  {
    if documents != [] {
      var init := documents[..|documents| - 1];
      FilteredIdempotent(init, r, threshold);
      var rest := Filtered(init, r, threshold);
      var last := documents[|documents| - 1];
      if Keep(last, r, threshold) {
        assert (rest + [last])[..|rest|] == rest;
      }
    }
  }

  /** Every document `applyFilters` keeps also meets the filter sent to the store. */
  lemma KeptMatchesStoreFilter(d: VectorDocument, r: QueryRequest, threshold: real)
    requires Keep(d, r, threshold) && FilterOf(r).Some?
    ensures Matches(FilterOf(r).value, d.metadata)
  {
    var m := d.metadata;
    var parts := FilterParts(r);
    if r.documentId.Some? {
      assert "documentId" in m;
    }
    if r.tags.Some? && r.tags.value != [] {
      assert ListContains(m["tags"].items, r.tags.value[0]);
      assert InValues(m["tags"], r.tags.value);
    }
    assert forall i :: 0 <= i < |parts| ==> Matches(parts[i], m);
    ConjoinMatches(parts, m);
  }

  /** The store filter asks for one of the tags, the in-memory filter for
      all of them: a document tagged only "a" meets the store filter of a
      request for "a" and "b" and is then dropped. */
  lemma TagFilterLooserThanPostFilter()
    ensures var r := QueryRequest(Some("q"), None, None, None, Some([Some("a"), Some("b")]), None, None);
      var d := VectorDocument("t", map["tags" := ListVal([Some(Str("a"))])]);
      && FilterOf(r) == Some(In("tags", [Some("a"), Some("b")]))
      && Matches(FilterOf(r).value, d.metadata)
      && !Keep(d, r, 0.6)
  {
    var r := QueryRequest(Some("q"), None, None, None, Some([Some("a"), Some("b")]), None, None);
    var items := [Some(Str("a"))];
    var values := [Some("a"), Some("b")];
    assert ElementEquals(items[0], values[0]);
    assert ListContains(items, values[0]);
    assert InValues(ListVal(items), values);
    assert !ListContains(items, values[1]);
    assert !ListContainsAll(items, values);
    assert FilterParts(r) == [In("tags", values)];
  }

  /** `limitResults`: the first `topK` documents; `None` where `subList` throws. */
  function LimitResults(documents: seq<VectorDocument>, topK: int): (r: Option<seq<VectorDocument>>)
    ensures r.None? <==> |documents| > topK && topK < 0 && documents != []
    ensures r.Some? ==> |r.value| <= |documents| && r.value == documents[..|r.value|]
    ensures r.Some? && topK >= 0 ==> |r.value| == if |documents| <= topK then |documents| else topK
  {
    if documents == [] then Some([])
    else if |documents| <= topK then Some(documents)
    else if topK < 0 then None
    else Some(documents[..topK])
  }

  // ---------------------------------------------------------------------------
  // The context handed to the model

  /** The block `buildContext` writes for one document. */
  function Block(d: VectorDocument): string {
    var m := d.metadata;
    "DocumentId: " + Show(GetOrDefault(m, "documentId", Str(""))) + " | Title: " + Show(GetOrDefault(m, "title", Str("")))
      + " | ChunkIndex: " + Show(GetOrDefault(m, "chunkIndex", IntNum(0))) + LineSeparator
      + d.text + LineSeparator + "---" + LineSeparator
  }

  function Blocks(documents: seq<VectorDocument>): string {
    FlatMap(Block, documents)
  }

  /** `Math.max(1, maxContextDocuments)`. */
  function ContextLimit(maxContextDocuments: int): (n: int)
    ensures n >= 1 && n >= maxContextDocuments
  {
    if maxContextDocuments < 1 then 1 else maxContextDocuments
  }

  /** How many documents the context holds. */
  function ContextCount(documents: seq<VectorDocument>, maxContextDocuments: int): (n: nat)
    ensures n <= |documents| && n <= ContextLimit(maxContextDocuments)
    ensures n == |documents| || n == ContextLimit(maxContextDocuments)
  {
    var limit := ContextLimit(maxContextDocuments);
    if |documents| <= limit then |documents| else limit
  }

  /** The context: the blocks of the first documents, at most the limit. */
  function Context(documents: seq<VectorDocument>, maxContextDocuments: int): string {
    Blocks(documents[..ContextCount(documents, maxContextDocuments)])
  }

  /** `buildContext`. */
  method BuildContext(documents: seq<VectorDocument>, maxContextDocuments: int) returns (context: string)
    ensures context == Context(documents, maxContextDocuments)
  {
    var builder := "";
    var maxDocs := if 1 > maxContextDocuments then 1 else maxContextDocuments;
    var count := 0;
    var i := 0;
    while i < |documents|
      invariant 0 <= i <= |documents| && count == i && count <= maxDocs
      invariant builder == Blocks(documents[..i])
    {
      if count >= maxDocs {
        break;
      }
      var document := documents[i];
      var metadata := document.metadata;
      var header := "DocumentId: " + Show(GetOrDefault(metadata, "documentId", Str(""))) + " | Title: "
        + Show(GetOrDefault(metadata, "title", Str(""))) + " | ChunkIndex: "
        + Show(GetOrDefault(metadata, "chunkIndex", IntNum(0))) + LineSeparator;
      builder := builder + header;
      builder := builder + document.text + LineSeparator + "---" + LineSeparator;
      assert documents[..i + 1][..i] == documents[..i];
      count := count + 1;
      i := i + 1;
    }
    context := builder;
  }

  /** Documents past the limit never reach the context. */
  lemma ContextIgnoresLaterDocuments(documents: seq<VectorDocument>, extra: seq<VectorDocument>, maxContextDocuments: int)
    requires |documents| >= ContextLimit(maxContextDocuments)
    ensures Context(documents + extra, maxContextDocuments) == Context(documents, maxContextDocuments)
  {
    var n := ContextLimit(maxContextDocuments);
    assert (documents + extra)[..n] == documents[..n];
  }

  /** The context lists its documents in retrieval order: the blocks of the
      documents before the `i`-th, then its own block, then the rest. */
  lemma ContextInOrder(documents: seq<VectorDocument>, maxContextDocuments: int, i: int)
    requires 0 <= i < ContextCount(documents, maxContextDocuments)
    ensures var n := ContextCount(documents, maxContextDocuments);
      Context(documents, maxContextDocuments) == Blocks(documents[..i]) + Block(documents[i]) + Blocks(documents[i + 1..n])
  {
    var n := ContextCount(documents, maxContextDocuments);
    var prefix := documents[..n];
    FlatMapAround(Block, prefix, i);
    assert prefix[..i] == documents[..i] && prefix[i] == documents[i] && prefix[i + 1..] == documents[i + 1..n];
  }

  /** A document without metadata gets the defaults in its header. */
  lemma BareDocumentBlock(text: string)
    ensures Block(VectorDocument(text, map[])) == "DocumentId:  | Title:  | ChunkIndex: 0\n" + text + "\n---\n"
  {
    var d := VectorDocument(text, map[]);
    assert Show(GetOrDefault(d.metadata, "documentId", Str(""))) == "";
    assert Show(GetOrDefault(d.metadata, "title", Str(""))) == "";
    assert Show(GetOrDefault(d.metadata, "chunkIndex", IntNum(0))) == "0" by {
      assert NatToString(0) == [DigitChar(0)];
    }
    var header := "DocumentId: " + "" + " | Title: " + "" + " | ChunkIndex: " + "0" + LineSeparator;
    var footer := LineSeparator + "---" + LineSeparator;
    assert header == "DocumentId:  | Title:  | ChunkIndex: 0\n";
    assert footer == "\n---\n";
    assert Block(d) == header + text + footer;
  }

  // ---------------------------------------------------------------------------
  // The service

  /** The search `retrieveDocuments` issues for a request. */
  function SearchFor(r: QueryRequest, defaultTopK: int, maxTopK: int, defaultThreshold: real): SearchRequest
    requires r.query.Some?
  {
    SearchRequest(r.query.value, ClampedTopK(r.topK, defaultTopK, maxTopK),
                  ResolveThreshold(r.similarityThreshold, defaultThreshold), FilterOf(r))
  }

  /** What `retrieveDocuments` returns for a search outcome; `None` where it throws. */
  function Retrieved(outcome: SearchOutcome, r: QueryRequest, threshold: real): (docs: Option<seq<VectorDocument>>)
    ensures docs.None? <==> outcome.SearchFailed?
    ensures outcome.NoList? ==> docs == Some([])
    ensures outcome.Found? ==> docs == Some(Filtered(outcome.documents, r, threshold))
  {
    match outcome
    case Found(documents) => Some(Filtered(documents, r, threshold))
    case NoList => Some([])
    case SearchFailed => None
  }

  /** A streamed answer: an error signal, an empty stream, or the model's
      stream for a prompt. */
  datatype AnswerStream = StreamError(failure: Failure) | EmptyStream | ModelStream(prompt: Prompt)

  class QueryServiceImpl {
    const vectorStore: VectorStore
    const chatModel: ChatModel
    const queryProperties: QueryProperties
    const ragProperties: RagProperties

    constructor (vectorStore: VectorStore, chatModel: ChatModel, queryProperties: QueryProperties, ragProperties: RagProperties)
      ensures this.vectorStore == vectorStore && this.chatModel == chatModel
      ensures this.queryProperties == queryProperties && this.ragProperties == ragProperties
    {
      this.vectorStore := vectorStore;
      this.chatModel := chatModel;
      this.queryProperties := queryProperties;
      this.ragProperties := ragProperties;
    }

    /** `retrieveDocuments`: one store search under the request's filter, then `applyFilters`. */
    method RetrieveDocuments(r: QueryRequest, topK: int, threshold: real) returns (documents: Option<seq<VectorDocument>>)
      requires r.query.Some?
      modifies vectorStore
      ensures var search := SearchRequest(r.query.value, topK, threshold, FilterOf(r));
        && vectorStore.searches == old(vectorStore.searches) + [search]
        && documents == Retrieved(vectorStore.search(search), r, threshold)
      ensures vectorStore.added == old(vectorStore.added)
    {
      var filter := BuildFilterExpression(r);
      var outcome := vectorStore.SimilaritySearch(SearchRequest(r.query.value, topK, threshold, filter));
      match outcome
      case SearchFailed =>
        documents := None;
      case NoList =>
        var filtered := ApplyFilters(None, r, threshold);
        documents := Some(filtered);
      case Found(retrieved) =>
        var filtered := ApplyFilters(Some(retrieved), r, threshold);
        documents := Some(filtered);
    }

    /** `query`: the sources of at most `topK` filtered documents. Any
        failure after validation becomes "Unable to retrieve documents". */
    method Query(request: Option<QueryRequest>, latencyMs: int) returns (result: Result<QueryResult>)
      modifies vectorStore
      ensures vectorStore.added == old(vectorStore.added)
      ensures ValidateQueryRequest(request).Fail? ==>
        result == Err(IllegalArgument(QueryMustNotBeEmpty)) && vectorStore.searches == old(vectorStore.searches)
      ensures ValidateQueryRequest(request).Pass? ==>
        var search := SearchFor(request.value, queryProperties.topKDefault, queryProperties.topKMax, queryProperties.similarityThreshold);
        var retrieved := Retrieved(vectorStore.search(search), request.value, search.similarityThreshold);
        && vectorStore.searches == old(vectorStore.searches) + [search]
        && (retrieved.None? || LimitResults(retrieved.value, search.topK).None? ==> result == Err(IllegalState(UnableToRetrieve)))
        && (retrieved.Some? && LimitResults(retrieved.value, search.topK).Some? ==>
              var limited := LimitResults(retrieved.value, search.topK).value;
              && result.Ok?
              && |result.value.results| == |limited|
              && (forall i :: 0 <= i < |limited| ==> result.value.results[i] == QueryMapper.SourceOf(limited[i]))
              && result.value.answer.None? && result.value.sources == [] && result.value.contextUsed == []
              && result.value.latencyMs == latencyMs)
      ensures result.Ok? && queryProperties.topKMax >= 1 ==> |result.value.results| <= queryProperties.topKMax
    {
      if ValidateQueryRequest(request).Fail? {
        return Err(IllegalArgument(QueryMustNotBeEmpty));
      }
      var r := request.value;
      var topK := ResolveTopK(r.topK, queryProperties.topKDefault, queryProperties.topKMax);
      var threshold := ResolveThreshold(r.similarityThreshold, queryProperties.similarityThreshold);
      var retrieved := RetrieveDocuments(r, topK, threshold);
      if retrieved.None? {
        return Err(IllegalState(UnableToRetrieve));
      }
      var limited := LimitResults(retrieved.value, topK);
      if limited.None? {
        return Err(IllegalState(UnableToRetrieve));
      }
      var queryResult := QueryMapper.ToQueryResult(Some(limited.value), latencyMs);
      result := Ok(queryResult);
    }

    /** `answer`: with no surviving document, an empty answer and no model
        call; otherwise one model call on the question and the context, and
        a source, a citation and a context snippet for every surviving document. */
    method Answer(request: Option<QueryRequest>, latencyMs: int) returns (result: Result<QueryResult>)
      modifies vectorStore, chatModel
      ensures vectorStore.added == old(vectorStore.added) && chatModel.streams == old(chatModel.streams)
      ensures ValidateQueryRequest(request).Fail? ==>
        && result == Err(IllegalArgument(QueryMustNotBeEmpty))
        && vectorStore.searches == old(vectorStore.searches) && chatModel.calls == old(chatModel.calls)
      ensures ValidateQueryRequest(request).Pass? ==>
        var search := SearchFor(request.value, ragProperties.topKDefault, ragProperties.topKMax, ragProperties.similarityThreshold);
        var retrieved := Retrieved(vectorStore.search(search), request.value, search.similarityThreshold);
        && vectorStore.searches == old(vectorStore.searches) + [search]
        && (retrieved.None? ==> result == Err(CollaboratorFailure) && chatModel.calls == old(chatModel.calls))
        && (retrieved == Some([]) ==>
              && result == Ok(QueryResult([], Some(""), [], [], latencyMs, None, None))
              && chatModel.calls == old(chatModel.calls))
        && (retrieved.Some? && retrieved.value != [] ==>
              var documents := retrieved.value;
              var prompt := Prompt(request.value.query.value, Context(documents, ragProperties.maxContextDocuments));
              && chatModel.calls == old(chatModel.calls) + [prompt]
              && (chatModel.reply(prompt).ChatFailed? ==> result == Err(CollaboratorFailure))
              && (chatModel.reply(prompt).Replied? ==> AnswerOf(result, documents, chatModel.reply(prompt).response, latencyMs)))
    {
      if ValidateQueryRequest(request).Fail? {
        return Err(IllegalArgument(QueryMustNotBeEmpty));
      }
      var r := request.value;
      var topK := ResolveTopK(r.topK, ragProperties.topKDefault, ragProperties.topKMax);
      var threshold := ResolveThreshold(r.similarityThreshold, ragProperties.similarityThreshold);
      var retrieved := RetrieveDocuments(r, topK, threshold);
      if retrieved.None? {
        return Err(CollaboratorFailure);
      }
      var documents := retrieved.value;
      if documents == [] {
        var empty := QueryMapper.ToGenerativeResult([], Some(""), latencyMs, None, None);
        return Ok(empty);
      }
      var context := BuildContext(documents, ragProperties.maxContextDocuments);
      var prompt := Prompt(r.query.value, context);
      var outcome := chatModel.Call(prompt);
      if outcome.ChatFailed? {
        return Err(CollaboratorFailure);
      }
      var response := outcome.response;
      var usage := response.usage;
      var promptTokens := if usage.Some? then usage.value.promptTokens else None;
      var completionTokens := if usage.Some? then usage.value.completionTokens else None;
      var answer := QueryMapper.ToGenerativeResult(documents, response.text, latencyMs, promptTokens, completionTokens);
      result := Ok(answer);
    }

    /** `streamAnswer`: an error signal when streaming is switched off (no
        search made), an empty stream when no document survives, otherwise
        the model's stream for the question and the context. */
    method StreamAnswer(request: Option<QueryRequest>) returns (result: Result<AnswerStream>)
      modifies vectorStore, chatModel
      ensures vectorStore.added == old(vectorStore.added) && chatModel.calls == old(chatModel.calls)
      ensures ValidateQueryRequest(request).Fail? ==>
        && result == Err(IllegalArgument(QueryMustNotBeEmpty))
        && vectorStore.searches == old(vectorStore.searches) && chatModel.streams == old(chatModel.streams)
      ensures ValidateQueryRequest(request).Pass? && !ragProperties.streamingEnabled ==>
        && result == Ok(StreamError(IllegalState(StreamingDisabled)))
        && vectorStore.searches == old(vectorStore.searches) && chatModel.streams == old(chatModel.streams)
      ensures ValidateQueryRequest(request).Pass? && ragProperties.streamingEnabled ==>
        var search := SearchFor(request.value, ragProperties.topKDefault, ragProperties.topKMax, ragProperties.similarityThreshold);
        var retrieved := Retrieved(vectorStore.search(search), request.value, search.similarityThreshold);
        && vectorStore.searches == old(vectorStore.searches) + [search]
        && (retrieved.None? ==> result == Err(CollaboratorFailure) && chatModel.streams == old(chatModel.streams))
        && (retrieved == Some([]) ==> result == Ok(EmptyStream) && chatModel.streams == old(chatModel.streams))
        && (retrieved.Some? && retrieved.value != [] ==>
              var prompt := Prompt(request.value.query.value, Context(retrieved.value, ragProperties.maxContextDocuments));
              result == Ok(ModelStream(prompt)) && chatModel.streams == old(chatModel.streams) + [prompt])
    {
      if ValidateQueryRequest(request).Fail? {
        return Err(IllegalArgument(QueryMustNotBeEmpty));
      }
      if !ragProperties.streamingEnabled {
        return Ok(StreamError(IllegalState(StreamingDisabled)));
      }
      var r := request.value;
      var topK := ResolveTopK(r.topK, ragProperties.topKDefault, ragProperties.topKMax);
      var threshold := ResolveThreshold(r.similarityThreshold, ragProperties.similarityThreshold);
      var retrieved := RetrieveDocuments(r, topK, threshold);
      if retrieved.None? {
        return Err(CollaboratorFailure);
      }
      if retrieved.value == [] {
        return Ok(EmptyStream);
      }
      var context := BuildContext(retrieved.value, ragProperties.maxContextDocuments);
      var prompt := Prompt(r.query.value, context);
      chatModel.Stream(prompt);
      result := Ok(ModelStream(prompt));
    }
  }

  /** The generated result for the surviving documents and the model's reply:
      its text as the answer, its token counts when it reports usage, and one
      source, citation and context snippet per document, in order. */
  predicate AnswerOf(result: Result<QueryResult>, documents: seq<VectorDocument>, response: ChatResponse, latencyMs: int) {
    && result.Ok?
    && result.value.answer == response.text
    && result.value.latencyMs == latencyMs
    && result.value.promptTokens == (if response.usage.Some? then response.usage.value.promptTokens else None)
    && result.value.completionTokens == (if response.usage.Some? then response.usage.value.completionTokens else None)
    && |result.value.results| == |result.value.sources| == |result.value.contextUsed| == |documents|
    && (forall i :: 0 <= i < |documents| ==>
          && result.value.results[i] == QueryMapper.SourceOf(documents[i])
          && result.value.sources[i] == QueryMapper.CitationOf(documents[i])
          && result.value.contextUsed[i] == QueryMapper.SnippetOf(documents[i]))
  }
}
