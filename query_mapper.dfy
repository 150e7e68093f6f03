/**
  The mapper from vector-store documents to the domain records, and from
  the domain records to the wire records. Every metadata reader is total:
  a missing or unreadable value gives a fixed default instead of an error.
*/
module QueryMapper {
  import opened Wrappers
  import opened JavaText
  import opened Metadata
  import Uuids
  import opened QueryResults
  import opened Responses

  // ---------------------------------------------------------------------------
  // Metadata readers

  /** `parseString`: the value's `toString`, null for null. */
  function ParseString(v: Option<Value>): (r: Option<string>)
    ensures r.None? <==> v.None?
    ensures v.Some? ==> r.value == Show(v.value)
  {
    match v
    case None => None
    case Some(x) => Some(Show(x))
  }

  /** `parseUuid`: a UUID as is, a string with text through `UUID.fromString`
      (null when that throws), null for anything else. */
  function ParseUuid(v: Option<Value>): (r: Option<Uuids.Uuid>)
    ensures v.Some? && v.value.UuidVal? ==> r == Some(v.value.u)
    ensures v.Some? && v.value.Str? && HasText(Some(v.value.s)) ==> r == Uuids.FromString(v.value.s)
    ensures r.Some? ==> v.Some? && (v.value.UuidVal? || (v.value.Str? && HasText(Some(v.value.s))))
  {
    match v
    case Some(UuidVal(u)) => Some(u)
    case Some(Str(text)) => if HasText(Some(text)) then Uuids.FromString(text) else None
    case _ => None
  }

  /** `parseInt`: a number's `intValue`, a string with text through
      `Integer.parseInt` (0 when that throws), 0 for anything else. */
  function ParseInt(v: Option<Value>): (r: int)
    ensures InIntRange(r)
    ensures v.Some? && IsNumber(v.value) ==> r == IntValue(v.value)
    ensures (v.Some? && v.value.Str? && HasText(Some(v.value.s)) && JavaText.ParseInt(v.value.s).Some?)
      ==> r == JavaText.ParseInt(v.value.s).value
    ensures r != 0 ==> v.Some? && (IsNumber(v.value) || (v.value.Str? && JavaText.ParseInt(v.value.s).Some?))
  {
    match v
    case Some(x) =>
      if IsNumber(x) then IntValue(x)
      else if x.Str? && HasText(Some(x.s)) then
        match JavaText.ParseInt(x.s)
        case Some(n) => n
        case None => 0
      else 0
    case None => 0
  }

  /** A number's `doubleValue`, a string with text through
      `Double.parseDouble` (0.0 when that throws), 0.0 for anything else. */
  function ReadDouble(target: Option<Value>): (r: real)
    ensures target.Some? && IsNumber(target.value) ==> r == DoubleValue(target.value)
    ensures (target.Some? && target.value.Str? && HasText(Some(target.value.s)) && JavaText.ParseDouble(target.value.s).Some?)
      ==> r == JavaText.ParseDouble(target.value.s).value
    ensures r != 0.0 ==> target.Some? && (IsNumber(target.value) || (target.value.Str? && JavaText.ParseDouble(target.value.s).Some?))
  {
    match target
    case Some(x) =>
      if IsNumber(x) then DoubleValue(x)
      else if x.Str? && HasText(Some(x.s)) then
        match JavaText.ParseDouble(x.s)
        case Some(d) => d
        case None => 0.0
      else 0.0
    case None => 0.0
  }

  /** `parseDouble(primary, fallback)`: reads `primary` when it is non-null
      and `fallback` only when it is null. */
  function ParseDouble(primary: Option<Value>, fallback: Option<Value>): (r: real)
    ensures primary.Some? ==> r == ReadDouble(primary)
    ensures primary.None? ==> r == ReadDouble(fallback)
  {
    ReadDouble(if primary.Some? then primary else fallback)
  }

  /** A non-null score that cannot be read gives 0.0, whatever the distance. */
  lemma UnreadableScoreIgnoresDistance(text: string, distance: Option<Value>)
    requires JavaText.ParseDouble(text) == None
    ensures ParseDouble(Some(Str(text)), distance) == 0.0
  {
  }

  /** `parseSnippet`: the `content` entry if it has text, else the `text`
      entry, else ""; never null. The document body is not consulted. */
  function ParseSnippet(m: Bag): (r: string)
    ensures HasText(ParseString(Get(m, "content"))) ==> r == Show(m["content"])
    ensures !HasText(ParseString(Get(m, "content"))) && "text" in m ==> r == Show(m["text"])
    ensures !HasText(ParseString(Get(m, "content"))) && "text" !in m ==> r == ""
  {
    var content := ParseString(Get(m, "content"));
    var snippet := if HasText(content) then content else ParseString(Get(m, "text"));
    if snippet.Some? then snippet.value else ""
  }

  // ---------------------------------------------------------------------------
  // Tags

  /** The `toString` of each non-null element, in order. */
  function TagStrings(items: seq<Option<Value>>): (tags: seq<string>)
    ensures |tags| <= |items|
  {
    if items == [] then []
    else
      var last := items[|items| - 1];
      TagStrings(items[..|items| - 1]) + (if last.Some? then [Show(last.value)] else [])
  }

  /** What `parseTags` returns: the list's non-null elements as strings, or
      an empty list for anything that is not a list. */
  function TagsOf(tagsObject: Option<Value>): seq<string> {
    match tagsObject
    case Some(ListVal(items)) => TagStrings(items)
    case _ => []
  }

  /** `parseTags`. */
  method ParseTags(tagsObject: Option<Value>) returns (tags: seq<string>)
    ensures tags == TagsOf(tagsObject)
  {
    tags := [];
    if tagsObject.Some? && tagsObject.value.ListVal? {
      var list := tagsObject.value.items;
      for i := 0 to |list|
        invariant tags == TagStrings(list[..i])
      {
        assert list[..i + 1][..i] == list[..i];
        if list[i].Some? {
          tags := tags + [Show(list[i].value)];
        }
      }
      assert list[..|list|] == list;
    }
  }

  /** A list of strings reads back as those strings. */
  lemma {:induction false} TagStringsOfStrings(items: seq<Option<Value>>, tags: seq<string>)
    requires |items| == |tags|
    requires forall i :: 0 <= i < |items| ==> items[i] == Some(Str(tags[i]))
    ensures TagStrings(items) == tags
  {
    if items != [] {
      var n := |items| - 1;
      TagStringsOfStrings(items[..n], tags[..n]);
      assert tags == tags[..n] + [tags[n]];
    }
  }

  /** Each tag read is the string form of some non-null element, and every
      non-null string element is read. */
  lemma {:induction false} TagStringsMembers(items: seq<Option<Value>>)
    ensures forall t :: t in TagStrings(items) ==> exists i :: 0 <= i < |items| && items[i].Some? && Show(items[i].value) == t
    ensures forall i :: 0 <= i < |items| && items[i].Some? ==> Show(items[i].value) in TagStrings(items)
  {
    if items != [] {
      var n := |items| - 1;
      TagStringsMembers(items[..n]);
      forall i | 0 <= i < n && items[i].Some?
        ensures Show(items[i].value) in TagStrings(items)
      {
        assert items[..n][i] == items[i];
      }
      forall t | t in TagStrings(items)
        ensures exists i :: 0 <= i < |items| && items[i].Some? && Show(items[i].value) == t
      {
        if t in TagStrings(items[..n]) {
          var i :| 0 <= i < n && items[..n][i].Some? && Show(items[..n][i].value) == t;
          assert items[i] == items[..n][i];
        } else {
          assert items[n].Some? && Show(items[n].value) == t;
        }
      }
    }
  }

  // ---------------------------------------------------------------------------
  // Documents to domain records

  /** The `Source` `mapSources` builds for one document. */
  function SourceOf(document: VectorDocument): Source {
    var m := document.metadata;
    Source(ParseUuid(Get(m, "documentId")), ParseString(Get(m, "title")), ParseInt(Get(m, "chunkIndex")),
           ParseSnippet(m), ParseDouble(Get(m, "score"), Get(m, "distance")),
           ParseString(Get(m, "source")), TagsOf(Get(m, "tags")))
  }

  /** The `Citation` `mapCitations` builds for one document. */
  function CitationOf(document: VectorDocument): Citation {
    var m := document.metadata;
    NewCitation(ParseUuid(Get(m, "documentId")), ParseString(Get(m, "title")), ParseInt(Get(m, "chunkIndex")),
                ParseDouble(Get(m, "score"), Get(m, "distance")),
                ParseString(Get(m, "source")), Some(TagsOf(Get(m, "tags"))))
  }

  /** The `ContextSnippet` `mapContextSnippets` builds for one document. */
  function SnippetOf(document: VectorDocument): ContextSnippet {
    var m := document.metadata;
    ContextSnippet(ParseUuid(Get(m, "documentId")), ParseInt(Get(m, "chunkIndex")), ParseSnippet(m))
  }

  /** A citation carries the same fields as the source of the same document. */
  lemma CitationAgreesWithSource(document: VectorDocument)
    ensures var s, c := SourceOf(document), CitationOf(document);
      c == Citation(s.documentId, s.title, s.chunkIndex, s.score, s.source, s.tags)
  {
  }

  /** `mapSources`: one source per document, in order. */
  method MapSources(documents: seq<VectorDocument>) returns (sources: seq<Source>)
    ensures |sources| == |documents|
    ensures forall i :: 0 <= i < |documents| ==> sources[i] == SourceOf(documents[i])
  {
    sources := [];
    for i := 0 to |documents|
      invariant |sources| == i
      invariant forall j :: 0 <= j < i ==> sources[j] == SourceOf(documents[j])
    {
      var m := documents[i].metadata;
      var documentId := ParseUuid(Get(m, "documentId"));
      var title := ParseString(Get(m, "title"));
      var chunkIndex := ParseInt(Get(m, "chunkIndex"));
      var source := ParseString(Get(m, "source"));
      var tags := ParseTags(Get(m, "tags"));
      var score := ParseDouble(Get(m, "score"), Get(m, "distance"));
      var snippet := ParseSnippet(m);
      sources := sources + [Source(documentId, title, chunkIndex, snippet, score, source, tags)];
    }
  }

  /** `mapCitations`: one citation per document, in order. */
  method MapCitations(documents: seq<VectorDocument>) returns (citations: seq<Citation>)
    ensures |citations| == |documents|
    ensures forall i :: 0 <= i < |documents| ==> citations[i] == CitationOf(documents[i])
  {
    citations := [];
    for i := 0 to |documents|
      invariant |citations| == i
      invariant forall j :: 0 <= j < i ==> citations[j] == CitationOf(documents[j])
    {
      var m := documents[i].metadata;
      var documentId := ParseUuid(Get(m, "documentId"));
      var title := ParseString(Get(m, "title"));
      var chunkIndex := ParseInt(Get(m, "chunkIndex"));
      var source := ParseString(Get(m, "source"));
      var tags := ParseTags(Get(m, "tags"));
      var score := ParseDouble(Get(m, "score"), Get(m, "distance"));
      citations := citations + [NewCitation(documentId, title, chunkIndex, score, source, Some(tags))];
    }
  }

  /** `mapContextSnippets`: one snippet per document, in order. */
  method MapContextSnippets(documents: seq<VectorDocument>) returns (snippets: seq<ContextSnippet>)
    ensures |snippets| == |documents|
    ensures forall i :: 0 <= i < |documents| ==> snippets[i] == SnippetOf(documents[i])
  {
    snippets := [];
    for i := 0 to |documents|
      invariant |snippets| == i
      invariant forall j :: 0 <= j < i ==> snippets[j] == SnippetOf(documents[j])
    {
      var m := documents[i].metadata;
      var documentId := ParseUuid(Get(m, "documentId"));
      var chunkIndex := ParseInt(Get(m, "chunkIndex"));
      var snippet := ParseSnippet(m);
      snippets := snippets + [ContextSnippet(documentId, chunkIndex, snippet)];
    }
  }

  /** `toQueryResult`: the sources of the documents (none for a null or
      empty list), no answer, no citations, no context. */
  method ToQueryResult(documents: Option<seq<VectorDocument>>, latencyMs: int) returns (r: QueryResult)
    ensures var docs := OrEmpty(documents);
      && |r.results| == |docs|
      && (forall i :: 0 <= i < |docs| ==> r.results[i] == SourceOf(docs[i]))
    ensures r.answer.None? && r.sources == [] && r.contextUsed == []
    ensures r.latencyMs == latencyMs && r.promptTokens.None? && r.completionTokens.None?
  {
    if documents.None? || documents.value == [] {
      return NewRetrievalResult(Some([]), latencyMs);
    }
    var sources := MapSources(documents.value);
    r := NewRetrievalResult(Some(sources), latencyMs);
  }

  /** `toGenerativeResult`: sources, citations and context snippets with one
      entry per document each, in order; the rest passed through. */
  method ToGenerativeResult(documents: seq<VectorDocument>, answer: Option<string>, latencyMs: int,
                            promptTokens: Option<int>, completionTokens: Option<int>) returns (r: QueryResult)
    ensures |r.results| == |r.sources| == |r.contextUsed| == |documents|
    ensures forall i :: 0 <= i < |documents| ==>
      && r.results[i] == SourceOf(documents[i])
      && r.sources[i] == CitationOf(documents[i])
      && r.contextUsed[i] == SnippetOf(documents[i])
    ensures r.answer == answer && r.latencyMs == latencyMs
    ensures r.promptTokens == promptTokens && r.completionTokens == completionTokens
  {
    var sources := MapSources(documents);
    var citations := MapCitations(documents);
    var contextUsed := MapContextSnippets(documents);
    r := NewQueryResult(Some(sources), answer, Some(citations), Some(contextUsed), latencyMs, promptTokens, completionTokens);
  }

  // ---------------------------------------------------------------------------
  // Domain records to wire records

  function ItemOf(s: Source): QueryResultItem {
    QueryResultItem(s.documentId, s.title, s.chunkIndex, s.snippet, s.score, s.source, s.tags)
  }

  /** The source an item was copied from: nothing is lost in the copy. */
  function SourceOfItem(item: QueryResultItem): (s: Source)
    ensures ItemOf(s) == item
  {
    Source(item.documentId, item.title, item.chunkIndex, item.snippet, item.score, item.source, item.tags)
  }

  function SourceCitationOf(c: Citation): SourceCitation {
    SourceCitation(c.documentId, c.title, c.chunkIndex, c.score, c.source, c.tags)
  }

  function CitationOfItem(item: SourceCitation): (c: Citation)
    ensures SourceCitationOf(c) == item
  {
    Citation(item.documentId, item.title, item.chunkIndex, item.score, item.source, item.tags)
  }

  function AnswerSnippetOf(c: ContextSnippet): AnswerSnippet {
    AnswerSnippet(c.documentId, c.chunkIndex, c.snippet)
  }

  function SnippetOfItem(item: AnswerSnippet): (c: ContextSnippet)
    ensures AnswerSnippetOf(c) == item
  {
    ContextSnippet(item.documentId, item.chunkIndex, item.snippet)
  }

  /** `toResponse`: one item per result, in order, every field copied, so
      the result can be read back from the response. */
  method ToResponse(queryResult: QueryResult) returns (response: QueryResponse)
    ensures |response.results| == |queryResult.results|
    ensures forall i :: 0 <= i < |queryResult.results| ==> SourceOfItem(response.results[i]) == queryResult.results[i]
  {
    var items := [];
    for i := 0 to |queryResult.results|
      invariant |items| == i
      invariant forall j :: 0 <= j < i ==> items[j] == ItemOf(queryResult.results[j])
    {
      var s := queryResult.results[i];
      items := items + [QueryResultItem(s.documentId, s.title, s.chunkIndex, s.snippet, s.score, s.source, s.tags)];
    }
    response := QueryResponse(items);
  }

  /** `toAnswerResponse`: one citation item per citation and one snippet item
      per context snippet, in order, every field copied; answer, latency and
      token counts passed through. */
  method ToAnswerResponse(queryResult: QueryResult) returns (response: QueryAnswerResponse)
    ensures |response.sources| == |queryResult.sources|
    ensures forall i :: 0 <= i < |queryResult.sources| ==> CitationOfItem(response.sources[i]) == queryResult.sources[i]
    ensures |response.contextUsed| == |queryResult.contextUsed|
    ensures forall i :: 0 <= i < |queryResult.contextUsed| ==> SnippetOfItem(response.contextUsed[i]) == queryResult.contextUsed[i]
    ensures response.answer == queryResult.answer && response.latencyMs == queryResult.latencyMs
    ensures response.promptTokens == queryResult.promptTokens
    ensures response.completionTokens == queryResult.completionTokens
  {
    var citationItems := [];
    for i := 0 to |queryResult.sources|
      invariant |citationItems| == i
      invariant forall j :: 0 <= j < i ==> citationItems[j] == SourceCitationOf(queryResult.sources[j])
    {
      var c := queryResult.sources[i];
      citationItems := citationItems + [SourceCitation(c.documentId, c.title, c.chunkIndex, c.score, c.source, c.tags)];
    }
    var contextItems := [];
    for i := 0 to |queryResult.contextUsed|
      invariant |contextItems| == i
      invariant forall j :: 0 <= j < i ==> contextItems[j] == AnswerSnippetOf(queryResult.contextUsed[j])
    {
      var c := queryResult.contextUsed[i];
      contextItems := contextItems + [AnswerSnippet(c.documentId, c.chunkIndex, c.snippet)];
    }
    response := QueryAnswerResponse(queryResult.answer, citationItems, contextItems, queryResult.latencyMs,
                                    queryResult.promptTokens, queryResult.completionTokens);
  }

  // ---------------------------------------------------------------------------
  // Round trips with the writers

  /** A UUID stored as its string form reads back as that UUID. */
  lemma ParseUuidOfString(u: Uuids.Uuid)
    ensures ParseUuid(Some(Str(Uuids.ToString(u)))) == Some(u)
  {
    var s := Uuids.ToString(u);
    assert !IsWhitespace(s[0]);
    Uuids.FromStringOfToString(u);
  }

  /** An `Integer` reads back as itself, and so does its decimal string form. */
  lemma ParseIntOfInteger(n: int)
    requires InIntRange(n)
    ensures ParseInt(Some(IntNum(n))) == n
    ensures ParseInt(Some(Str(IntToString(n)))) == n
  {
    var s := IntToString(n);
    assert !IsWhitespace(s[0]);
    ParseIntRoundTrip(n);
  }

  /** A document whose metadata holds a UUID string, a title, an `Integer`
      chunk index, a source and string tags, and no content or text entry. */
  lemma SourceOfStoredFields(m: Bag, text: string, u: Uuids.Uuid, title: string, index: int, source: string,
                             items: seq<Option<Value>>, tags: seq<string>, score: real)
    requires Get(m, "documentId") == Some(Str(Uuids.ToString(u)))
    requires Get(m, "title") == Some(Str(title))
    requires Get(m, "chunkIndex") == Some(IntNum(index)) && InIntRange(index)
    requires Get(m, "source") == Some(Str(source))
    requires Get(m, "tags") == Some(ListVal(items))
    requires |items| == |tags| && forall i :: 0 <= i < |items| ==> items[i] == Some(Str(tags[i]))
    requires ParseDouble(Get(m, "score"), Get(m, "distance")) == score
    requires "content" !in m && "text" !in m
    ensures SourceOf(VectorDocument(text, m)) == Source(Some(u), Some(title), index, "", score, Some(source), tags)
  {
    ParseUuidOfString(u);
    ParseIntOfInteger(index);
    TagStringsOfStrings(items, tags);
  }

  /** The document of the mapper's own test: a string id, a title, an integer
      chunk index, a source, two tags and a score of 0.8. */
  lemma SampleDocument(u: Uuids.Uuid)
    ensures var m := map["documentId" := Str(Uuids.ToString(u)), "title" := Str("Sample"), "chunkIndex" := IntNum(1),
                         "source" := Str("manual"), "tags" := ListVal([Some(Str("a")), Some(Str("b"))]),
                         "score" := RealNum(0.8, "0.8")];
      SourceOf(VectorDocument("chunk content", m))
        == Source(Some(u), Some("Sample"), 1, "", 0.8, Some("manual"), ["a", "b"])
  {
    var m := map["documentId" := Str(Uuids.ToString(u)), "title" := Str("Sample"), "chunkIndex" := IntNum(1),
                 "source" := Str("manual"), "tags" := ListVal([Some(Str("a")), Some(Str("b"))]),
                 "score" := RealNum(0.8, "0.8")];
    var items := [Some(Str("a")), Some(Str("b"))];
    assert "content" !in m && "text" !in m;
    assert Get(m, "score") == Some(RealNum(0.8, "0.8"));
    SourceOfStoredFields(m, "chunk content", u, "Sample", 1, "manual", items, ["a", "b"], 0.8);
  }
}
