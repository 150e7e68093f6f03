# knowledgeAI core, modelled in Dafny

knowledgeAI is a retrieval-augmented question-answering service. Ingestion
takes a text, or the body fetched from a URL, and checks it. It saves a
document record, cuts the content into overlapping character windows, saves
the non-blank windows as chunks and adds one vector-store entry per chunk.
Each entry carries the document id, chunk index, source, title and tags as
metadata. A query validates the request and clamps `topK` and the
similarity threshold. It asks the vector store for similar chunks under an
optional metadata filter, filters the results again in memory and trims them
to `topK`. Then either:

- plain retrieval maps the results to sources, or
- answering builds a bounded context string, asks the chat model and returns
  the answer with sources, citations and context snippets, or
- streaming hands back the model's stream.

The project models that core:

- **Query service** (`query_service.dfy`): request validation; `topK` and
  threshold resolution; the store filter expression and its meaning; the
  in-memory filter and the score rule; the `topK` prefix; the context
  builder; the control flow of `query`, `answer` and `streamAnswer`.
- **Mapper** (`query_mapper.dfy`): the fail-closed metadata parsers, the
  document-to-record maps and the record-to-response copies.
- **Character chunker** (`text_chunker.dfy`): the window loop, with the
  window position, length, overlap, coverage and reassembly properties.
- **Ingest service** (`ingest_service.dfy`): the request and content guards,
  chunk numbering, the per-chunk metadata, the `ingest` sequence and its
  response.
- **Parser** (`tika_parser.dfy`): whitespace normalisation and the guards of
  `parse`, with Tika's extraction and detection as fixed functions.
- **Data shapes**:
  - `query_results.dfy`: `QueryResult` and its two constructors, plus
    `Citation`, `ContextSnippet` and the source record.
  - `query_request.dfy`: the bean-validation constraints of `QueryRequest`.
  - `responses.dfy`: the response records.
  - `config.dfy`: the property defaults.
- **Supporting models**:
  - `java_text.dfy`: Java's whitespace, `trim`, `isBlank`, `hasText`,
    `Integer.toString`/`parseInt` and a decimal `Double.parseDouble`.
  - `uuids.dfy`: `UUID.toString`/`fromString`.
  - `metadata.dfy`: the untyped metadata bag.
  - `collaborators.dfy`: the vector store and chat model as oracles that log
    their calls.

The oracles record every call in a sequence field. "Never searches" or
"never calls the model" is therefore stated as that log being unchanged.
Records are Dafny values, so the constructors' defensive copies and
unmodifiable getters hold by construction.

Observations the model makes precise:

- `answer` does not apply `limitResults`. Its citations and snippets cover
  every filtered document, while only the first `maxContextDocuments` reach
  the prompt (`QueryServiceImpl.Answer`, `AnswerOf`).
- The store filter asks for any one of the tags (`in`), but the in-memory
  filter demands all of them (`containsAll`) (`TagFilterLooserThanPostFilter`).
- Without a `score` entry the mapper reports the `distance`. The service's
  `parseScore` ignores `distance` and uses 0.0, which never filters anything
  out (`DistanceIsNotAScore`).
- Ingestion stores neither `content` nor `score`. A chunk read back through
  the mapper therefore has snippet "" and score 0.0 (`ChunkReadsBack`).
- `@NotBlank` trims characters up to U+0020, while `hasText` looks for a
  non-`Character.isWhitespace` character, and the two disagree. A
  one-character query of EN QUAD passes bean validation but is rejected by
  the service (`WideSpaceQueryRejected`). A control character below U+0009
  is the reverse (`ControlCharQueryAccepted`). At ingestion such a character
  has text for the request guard, but trims to nothing and is refused as
  empty (`InvisibleTextRefused`).

## Model

| member | source | states |
|---|---|---|
| QueryService.ValidateQueryRequest | src/main/java/com/ia/knowledgeai/service/impl/QueryServiceImpl.java:128-132 | passes exactly when the request is non-null and its query has text; otherwise fails with IllegalArgumentException "Query must not be empty" |
| QueryService.ResolveTopK | src/main/java/com/ia/knowledgeai/service/impl/QueryServiceImpl.java:134-143 | the requested value (default when null) lands in [1, max] when max ≥ 1, is kept when already inside, becomes 1 when below and max when above |
| QueryService.ResolveThreshold | src/main/java/com/ia/knowledgeai/service/impl/QueryServiceImpl.java:145-154 | the requested threshold (default when null) lands in [0, 1], kept when inside, clamped to the nearer bound otherwise |
| QueryService.ValidRequestKeepsItsSettings | src/main/java/com/ia/knowledgeai/dto/request/QueryRequest.java:16-20 | a request that passes bean validation keeps its own threshold, and its own topK when that is at most the maximum |
| QueryService.WideSpaceQueryRejected | src/main/java/com/ia/knowledgeai/service/impl/QueryServiceImpl.java:128-132 | a query of one Java-whitespace character above U+0020 passes bean validation yet the service rejects it |
| QueryService.EnQuadIsWhitespace | src/main/java/com/ia/knowledgeai/service/impl/QueryServiceImpl.java:129 | EN QUAD is such a character: Java whitespace that `trim` keeps |
| QueryService.ControlCharQueryAccepted | src/main/java/com/ia/knowledgeai/dto/request/QueryRequest.java:13-15 | a query of one non-whitespace control character fails bean validation yet has text for the service |
| QueryService.BuildFilterExpression | src/main/java/com/ia/knowledgeai/service/impl/QueryServiceImpl.java:165-180 | no filter exactly when documentId is null, source has no text and tags are null or empty; otherwise the left-to-right AND of eq(documentId), eq(source), in(tags) for those present |
| QueryService.ConjoinMatches | src/main/java/com/ia/knowledgeai/service/impl/QueryServiceImpl.java:167-179 | a document meets the joined filter exactly when it meets every condition |
| QueryService.ParseScore | src/main/java/com/ia/knowledgeai/service/impl/QueryServiceImpl.java:224-238 | a number's double value, a parseable string's value, and 0.0 in every other case (absent, unparseable, other types) |
| QueryService.ScoreAgreesWithMapper | src/main/java/com/ia/knowledgeai/service/impl/QueryServiceImpl.java:224-238 | where a score entry is present (and not a blank string) the service and the mapper read the same score |
| QueryService.DistanceIsNotAScore | src/main/java/com/ia/knowledgeai/mapper/QueryMapper.java:92 | with no score but a numeric distance the service reads 0.0, which always passes, while the mapper reports the distance |
| QueryService.ApplyFilters | src/main/java/com/ia/knowledgeai/service/impl/QueryServiceImpl.java:182-212 | the loop returns exactly the kept documents in input order, the empty list for null input |
| QueryService.FilteredMembers | src/main/java/com/ia/knowledgeai/service/impl/QueryServiceImpl.java:186-210 | a document is in the result exactly when it was retrieved and meets documentId, source, all-tags and score conditions |
| QueryService.FilteredIsSubsequence | src/main/java/com/ia/knowledgeai/service/impl/QueryServiceImpl.java:186-210 | the result is an order-preserving subsequence of the input |
| QueryService.FilteredIdempotent | src/main/java/com/ia/knowledgeai/service/impl/QueryServiceImpl.java:182-212 | filtering the filtered list again changes nothing |
| QueryService.KeptMatchesStoreFilter | src/main/java/com/ia/knowledgeai/service/impl/QueryServiceImpl.java:165-204 | every document the in-memory filter keeps also meets the filter sent to the store |
| QueryService.TagFilterLooserThanPostFilter | src/main/java/com/ia/knowledgeai/service/impl/QueryServiceImpl.java:176 | a document tagged only "a" meets the store filter for tags a and b and is then dropped by `containsAll` |
| QueryService.LimitResults | src/main/java/com/ia/knowledgeai/service/impl/QueryServiceImpl.java:214-222 | a prefix of the input of length min(n, topK), unsorted; fails only where `subList` throws (negative topK on a longer non-empty list) |
| QueryService.ContextLimit | src/main/java/com/ia/knowledgeai/service/impl/QueryServiceImpl.java:242 | the limit is at least 1 and at least maxContextDocuments |
| QueryService.ContextCount | src/main/java/com/ia/knowledgeai/service/impl/QueryServiceImpl.java:244-247 | the context holds all documents or exactly the limit, never more than either |
| QueryService.BuildContext | src/main/java/com/ia/knowledgeai/service/impl/QueryServiceImpl.java:240-258 | the StringBuilder loop with its break yields the blocks of the first max(1, maxContextDocuments) documents, joined |
| QueryService.ContextIgnoresLaterDocuments | src/main/java/com/ia/knowledgeai/service/impl/QueryServiceImpl.java:245-247 | documents beyond the limit never change the context |
| QueryService.ContextInOrder | src/main/java/com/ia/knowledgeai/service/impl/QueryServiceImpl.java:243-255 | the context is the blocks before document i, then i's block, then the later ones: input order |
| QueryService.BareDocumentBlock | src/main/java/com/ia/knowledgeai/service/impl/QueryServiceImpl.java:249-254 | without metadata a block is the header with an empty id, an empty title and index 0, a newline, the text, a newline, "---" and a newline |
| QueryService.Retrieved | src/main/java/com/ia/knowledgeai/service/impl/QueryServiceImpl.java:156-163 | a failed search fails, a null list gives the empty list, a list gives its filtered documents |
| QueryService.QueryServiceImpl.RetrieveDocuments | src/main/java/com/ia/knowledgeai/service/impl/QueryServiceImpl.java:156-163 | exactly one store search with the query, topK, threshold and the request's filter; its answer filtered in memory; nothing added |
| QueryService.QueryServiceImpl.Query | src/main/java/com/ia/knowledgeai/service/impl/QueryServiceImpl.java:63-82 | an invalid request fails before any search; otherwise one search, the first topK filtered documents mapped to sources in order, at most topKMax of them, and a retrieval failure becomes IllegalStateException "Unable to retrieve documents" |
| QueryService.QueryServiceImpl.Answer | src/main/java/com/ia/knowledgeai/service/impl/QueryServiceImpl.java:85-108 | an invalid request fails before any search; no surviving document gives answer "" with empty lists and no model call; otherwise one model call on the question and the bounded context, and a source, citation and snippet for every surviving document |
| QueryService.QueryServiceImpl.StreamAnswer | src/main/java/com/ia/knowledgeai/service/impl/QueryServiceImpl.java:111-126 | an invalid request fails; streaming switched off gives an error signal before any search; no surviving document gives an empty stream; otherwise one stream of the question and the bounded context |
| QueryMapper.ParseString | src/main/java/com/ia/knowledgeai/mapper/QueryMapper.java:155-157 | null for null, otherwise the value's string form |
| QueryMapper.ParseUuid | src/main/java/com/ia/knowledgeai/mapper/QueryMapper.java:140-153 | a UUID as is, a string with text through `UUID.fromString` (null when invalid), null for everything else |
| QueryMapper.ParseUuidOfString | src/test/java/com/ia/knowledgeai/mapper/QueryMapperTest.java:31-36 | a UUID stored as its string form reads back as that UUID |
| QueryMapper.ParseInt | src/main/java/com/ia/knowledgeai/mapper/QueryMapper.java:159-172 | a number's `intValue`, a parseable string with text its value, 0 otherwise; always in int range |
| QueryMapper.ParseIntOfInteger | src/main/java/com/ia/knowledgeai/mapper/QueryMapper.java:159-172 | an Integer and its decimal string both read back as that integer |
| QueryMapper.ReadDouble | src/main/java/com/ia/knowledgeai/mapper/QueryMapper.java:174-188 | a number's double value, a parseable string with text its value, 0.0 otherwise |
| QueryMapper.ParseDouble | src/main/java/com/ia/knowledgeai/mapper/QueryMapper.java:174-188 | reads the score when non-null and only otherwise the distance |
| QueryMapper.UnreadableScoreIgnoresDistance | src/main/java/com/ia/knowledgeai/mapper/QueryMapper.java:92 | an unparseable score string gives 0.0 whatever the distance |
| QueryMapper.ParseSnippet | src/main/java/com/ia/knowledgeai/mapper/QueryMapper.java:190-196 | the content entry if it has text, else the text entry, else "" (never null) |
| QueryMapper.ParseTags | src/main/java/com/ia/knowledgeai/mapper/QueryMapper.java:127-138 | the list loop yields the string forms of the non-null elements in order; empty for non-lists |
| QueryMapper.TagStringsMembers | src/main/java/com/ia/knowledgeai/mapper/QueryMapper.java:131-136 | each tag is the string form of a non-null element, and every non-null element's string form is a tag |
| QueryMapper.TagStringsOfStrings | src/main/java/com/ia/knowledgeai/mapper/QueryMapper.java:127-138 | a list of strings reads back as those strings |
| QueryMapper.CitationAgreesWithSource | src/main/java/com/ia/knowledgeai/mapper/QueryMapper.java:100-113 | a document's citation carries the same id, title, index, score, source and tags as its source |
| QueryMapper.MapSources | src/main/java/com/ia/knowledgeai/mapper/QueryMapper.java:83-98 | one source per document, in order |
| QueryMapper.MapCitations | src/main/java/com/ia/knowledgeai/mapper/QueryMapper.java:100-113 | one citation per document, in order |
| QueryMapper.MapContextSnippets | src/main/java/com/ia/knowledgeai/mapper/QueryMapper.java:115-125 | one snippet per document, in order |
| QueryMapper.ToQueryResult | src/main/java/com/ia/knowledgeai/mapper/QueryMapper.java:23-29 | one source per document in order (none for null or empty), no answer, no citations or context, the given latency |
| QueryMapper.ToGenerativeResult | src/main/java/com/ia/knowledgeai/mapper/QueryMapper.java:31-37 | sources, citations and snippets with one entry per document each, in order; answer, latency and token counts passed through |
| QueryMapper.SourceOfItem | src/main/java/com/ia/knowledgeai/mapper/QueryMapper.java:42-49 | the response item copy of a source loses nothing: the source is recovered from it |
| QueryMapper.CitationOfItem | src/main/java/com/ia/knowledgeai/mapper/QueryMapper.java:57-63 | the response item copy of a citation loses nothing |
| QueryMapper.SnippetOfItem | src/main/java/com/ia/knowledgeai/mapper/QueryMapper.java:68-71 | the response item copy of a snippet loses nothing |
| QueryMapper.ToResponse | src/main/java/com/ia/knowledgeai/mapper/QueryMapper.java:39-52 | one item per result, same order, each a faithful copy |
| QueryMapper.ToAnswerResponse | src/main/java/com/ia/knowledgeai/mapper/QueryMapper.java:54-81 | one item per citation and per snippet, same order, faithful copies; answer, latency and token counts copied |
| QueryMapper.SourceOfStoredFields | src/main/java/com/ia/knowledgeai/mapper/QueryMapper.java:83-98 | metadata holding a UUID string, title, Integer index, source and string tags, with no content, maps to exactly those fields |
| QueryMapper.SampleDocument | src/test/java/com/ia/knowledgeai/mapper/QueryMapperTest.java:20-36 | the test's document maps to its UUID, title "Sample", index 1, score 0.8, source "manual", tags a and b |
| TextChunker.EffectiveOverlap | src/main/java/com/ia/knowledgeai/service/TextChunker.java:21 | the overlap clamped into [0, chunkSize] |
| TextChunker.Chunk | src/main/java/com/ia/knowledgeai/service/TextChunker.java:14-31 | the while loop emits exactly the windows of the chunking function: none for null or blank text |
| TextChunker.ChunksEmptyIff | src/main/java/com/ia/knowledgeai/service/TextChunker.java:16-18 | no chunks exactly when the text is null or blank |
| TextChunker.ChunkFromWindow | src/main/java/com/ia/knowledgeai/service/TextChunker.java:22-28 | window i is the text from start + i·(size − overlap) up to size characters |
| TextChunker.ChunkPositions | src/main/java/com/ia/knowledgeai/service/TextChunker.java:22-28 | chunk i is text[i·step .. min(i·step + chunkSize, len)] with step = chunkSize − effectiveOverlap |
| TextChunker.ChunkLengths | src/main/java/com/ia/knowledgeai/service/TextChunker.java:23-24 | every chunk is non-empty and at most chunkSize long |
| TextChunker.FirstAndLastChunk | src/main/java/com/ia/knowledgeai/service/TextChunker.java:19-27 | the first chunk starts at 0 and the last ends at the end of the text |
| TextChunker.ChunkOverlap | src/main/java/com/ia/knowledgeai/service/TextChunker.java:28 | a non-final chunk is full length and its last effectiveOverlap characters open the next chunk |
| TextChunker.ReassembleChunks | src/main/java/com/ia/knowledgeai/service/TextChunker.java:19-29 | the first chunk plus each later chunk without its overlap gives back the text exactly |
| TextChunker.AlphabetExample | src/test/java/com/ia/knowledgeai/service/TextChunkerTest.java:14-23 | the alphabet in windows of 10 overlapping by 3 is abcdefghij, hijklmnopq, opqrstuvwx, vwxyz |
| IngestService.ValidateRequest | src/main/java/com/ia/knowledgeai/service/impl/IngestServiceImpl.java:72-84 | passes exactly when the request is non-null and exactly one of text and URL has text; each failure with its own message |
| IngestService.ResolveContent | src/main/java/com/ia/knowledgeai/service/impl/IngestServiceImpl.java:86-99 | the trimmed text when it has text, else the fetched body; a fetch failure becomes IllegalArgumentException |
| IngestService.ValidateLength | src/main/java/com/ia/knowledgeai/service/impl/IngestServiceImpl.java:101-108 | passes exactly when the content is non-null, not blank and at most the maximum length; each failure with its message |
| IngestService.Admitted | src/main/java/com/ia/knowledgeai/service/impl/IngestServiceImpl.java:58-60 | admitted content is non-blank, within the maximum, the trimmed text or the fetched body; any refusal is an IllegalArgumentException |
| IngestService.InvisibleTextRefused | src/main/java/com/ia/knowledgeai/service/impl/IngestServiceImpl.java:86-104 | a one-character text of a non-whitespace control character passes the request guard but is refused as empty content |
| IngestService.NewDocument | src/main/java/com/ia/knowledgeai/domain/Document.java:41-49 | the fields as given, null tags becoming the empty list |
| IngestService.DocumentRepository.Save | src/main/java/com/ia/knowledgeai/service/impl/IngestServiceImpl.java:110-114 | appends the document to the saved ones and hands it back |
| IngestService.ChunkRepository.SaveAll | src/main/java/com/ia/knowledgeai/service/impl/IngestServiceImpl.java:126 | records one batch of chunks |
| IngestService.KeptTextsMembers | src/main/java/com/ia/knowledgeai/service/impl/IngestServiceImpl.java:119-124 | a text is kept exactly when it is one of the chunk texts and not blank |
| IngestService.KeptTextsInOrder | src/main/java/com/ia/knowledgeai/service/impl/IngestServiceImpl.java:119-124 | the kept texts keep the chunker's order |
| IngestService.NonBlankContentKeepsAChunk | src/main/java/com/ia/knowledgeai/service/impl/IngestServiceImpl.java:63-65 | non-blank content on which the chunker finishes (one window, or advancing windows) always leaves at least one non-blank chunk |
| IngestService.DefaultChunkingTerminates | src/main/java/com/ia/knowledgeai/config/IngestProperties.java:8-12 | the default 800/200 windows always advance (effective overlap 200) |
| IngestService.TagValues | src/main/java/com/ia/knowledgeai/service/impl/IngestServiceImpl.java:143 | the tag list as a metadata list of the same length |
| IngestService.Embeddings | src/main/java/com/ia/knowledgeai/service/impl/IngestServiceImpl.java:136-145 | one vector document per chunk, in order |
| IngestService.ChunkReadsBack | src/main/java/com/ia/knowledgeai/service/impl/IngestServiceImpl.java:138-143 | a stored chunk reads back through the mapper as its document id, title, index, source and tags, with snippet "" and score 0.0 |
| IngestService.ChunkPassesQueryFilters | src/main/java/com/ia/knowledgeai/service/impl/IngestServiceImpl.java:138-143 | a stored chunk survives the in-memory filter of a query for its own document id, source and tags |
| IngestService.IngestServiceImpl.PersistChunks | src/main/java/com/ia/knowledgeai/service/impl/IngestServiceImpl.java:116-129 | the non-blank texts in order, numbered 0, 1, 2, …; saved as one batch only when there is one |
| IngestService.IngestServiceImpl.StoreEmbeddings | src/main/java/com/ia/knowledgeai/service/impl/IngestServiceImpl.java:131-148 | nothing added for no chunks; otherwise one add of one vector document per chunk, in order |
| IngestService.IngestServiceImpl.Ingest | src/main/java/com/ia/knowledgeai/service/impl/IngestServiceImpl.java:57-70 | under any configuration a refused request saves and adds nothing; for admitted content the chunker finishes on, the document saved, its non-blank chunks saved and embedded, and the response of id, chunk count, content length and "INGESTED" |
| TikaParser.Collapse | src/main/java/com/ia/knowledgeai/domain/support/TikaDocumentParser.java:57 | every whitespace run becomes one space: no other whitespace, no two spaces adjacent |
| TikaParser.CollapseIdentity | src/main/java/com/ia/knowledgeai/domain/support/TikaDocumentParser.java:57 | collapsing an already collapsed string changes nothing |
| TikaParser.Normalize | src/main/java/com/ia/knowledgeai/domain/support/TikaDocumentParser.java:53-58 | "" for null; otherwise no trimmed character at either end and no run of whitespace |
| TikaParser.NormalizeIdempotent | src/main/java/com/ia/knowledgeai/domain/support/TikaDocumentParser.java:53-58 | normalising twice is normalising once |
| TikaParser.NormalizeKeepsVisible | src/main/java/com/ia/knowledgeai/domain/support/TikaDocumentParser.java:57 | every character above U+0020 survives, in its original order |
| TikaParser.CollapseKeepsVisible | src/main/java/com/ia/knowledgeai/domain/support/TikaDocumentParser.java:57 | the collapsing keeps every character above U+0020 in order |
| TikaParser.FourWords | src/main/java/com/ia/knowledgeai/domain/support/TikaDocumentParser.java:57 | four words separated by whitespace runs normalise to the words joined by single spaces |
| TikaParser.PlainTextExample | src/test/java/com/ia/knowledgeai/domain/support/TikaDocumentParserTest.java:16-20 | "Hello\nWorld   via   Tika" normalises to "Hello World via Tika" |
| TikaParser.ParseResult | src/main/java/com/ia/knowledgeai/domain/support/TikaDocumentParser.java:27-51 | null or empty content refused as empty; an extraction failure rejected; a blank normalised text rejected; otherwise the normalised text with the given content type when it has text, else the detected one |
| TikaParser.ParsedTextIsNormal | src/main/java/com/ia/knowledgeai/domain/support/TikaDocumentParser.java:41-46 | a parsed text has text, no space at either end, no run of spaces, and is a fixed point of normalisation |
| TikaParser.Tika.ParseToString | src/main/java/com/ia/knowledgeai/domain/support/TikaDocumentParser.java:39 | the extraction oracle's answer, the call logged |
| TikaParser.Tika.Detect | src/main/java/com/ia/knowledgeai/domain/support/TikaDocumentParser.java:40 | the detection oracle's answer, the call logged |
| TikaParser.TikaDocumentParser.Parse | src/main/java/com/ia/knowledgeai/domain/support/TikaDocumentParser.java:27-51 | empty content refused before Tika is called; otherwise one extraction, detection only when extraction succeeded and no content type has text, and the result of the parse function |
| QueryResults.NewQueryResult | src/main/java/com/ia/knowledgeai/domain/QueryResult.java:27-36 | null lists become empty lists; every other field as given |
| QueryResults.NewRetrievalResult | src/main/java/com/ia/knowledgeai/domain/QueryResult.java:23-25 | the given results and latency, null answer and token counts, empty sources and context |
| QueryResults.NewCitation | src/main/java/com/ia/knowledgeai/domain/Citation.java:22-29 | the fields as given, null tags becoming the empty list |
| QueryResults.OrEmpty | src/main/java/com/ia/knowledgeai/domain/QueryResult.java:29-32 | the list, or the empty list for null |
| QueryRequests.ValidQueryOnly | src/main/java/com/ia/knowledgeai/dto/request/QueryRequest.java:12-25 | a request with only a query of 1 to 2000 characters not starting with a trimmed character is valid |
| Collaborators.VectorStore.SimilaritySearch | src/main/java/com/ia/knowledgeai/service/impl/QueryServiceImpl.java:156-163 | the store oracle's answer for the search, the search logged, nothing added |
| Collaborators.VectorStore.Add | src/main/java/com/ia/knowledgeai/service/impl/IngestServiceImpl.java:146 | appends the documents to those added |
| Collaborators.ChatModel.Call | src/main/java/com/ia/knowledgeai/service/impl/QueryServiceImpl.java:101 | the model oracle's reply to the prompt, the call logged |
| Collaborators.ChatModel.Stream | src/main/java/com/ia/knowledgeai/service/impl/QueryServiceImpl.java:125 | the prompt logged as streamed |
| JavaText.Trim | src/main/java/com/ia/knowledgeai/service/impl/IngestServiceImpl.java:88 | the middle slice of the text with every character up to U+0020 removed from both ends, and only those |
| JavaText.TrimIdentity | src/main/java/com/ia/knowledgeai/domain/support/TikaDocumentParser.java:57 | trimming a string with no trimmed character at either end changes nothing |
| JavaText.ControlCharsAreNotWhitespace | src/main/java/com/ia/knowledgeai/service/impl/IngestServiceImpl.java:88 | U+0000 to U+0008 are removed by `trim` but are not Java whitespace |
| JavaText.ParseIntRoundTrip | src/main/java/com/ia/knowledgeai/mapper/QueryMapper.java:159-172 | `Integer.parseInt` reads back what `Integer.toString` writes, for every int |
| JavaText.ParseDoubleOfInt | src/main/java/com/ia/knowledgeai/mapper/QueryMapper.java:174-188 | `Double.parseDouble` reads an integer's decimal form as that integer |
| JavaText.WrapToInt | src/main/java/com/ia/knowledgeai/mapper/QueryMapper.java:159-172 | a Long's `intValue` is in int range, equal modulo 2^32, unchanged when already in range |
| JavaText.TruncateToInt | src/main/java/com/ia/knowledgeai/mapper/QueryMapper.java:159-172 | a Double's `intValue` is in int range and truncates toward zero inside it |
| Uuids.FromStringOfToString | src/main/java/com/ia/knowledgeai/mapper/QueryMapper.java:140-153 | `UUID.fromString` reads back what `UUID.toString` writes |
| Uuids.ToStringInjective | src/main/java/com/ia/knowledgeai/service/impl/IngestServiceImpl.java:139 | distinct UUIDs are stored as distinct strings |
| Metadata.IntValue | src/main/java/com/ia/knowledgeai/mapper/QueryMapper.java:159-172 | `Number.intValue` is always in int range |
| Sequences.FlatMapAppend | src/main/java/com/ia/knowledgeai/service/impl/QueryServiceImpl.java:240-258 | the blocks of two lists joined are the two joined contexts |

## Left out

- The vector store, the chat model and the prompt template are Spring AI
  libraries. The store and the model are oracles, functions fixed at
  construction, whose calls are logged. The rendered prompt is the pair of
  question and context.
- Streaming: `Flux` is reactive. The model states only which of an error
  signal, an empty stream or the model's stream is returned, and with which
  prompt.
- Tika's `parseToString` and `detect` are oracles. `parse` builds a
  `Metadata` object holding the file name and content type
  (TikaDocumentParser.java:31-37) but never passes it to Tika:
  `parseToString` gets only the stream, and `detect` gets the file name
  directly. Leaving that object out therefore loses nothing.
- Controllers, HTTP status mapping, the health endpoint and the Spring wiring
  are not modelled.
- The URL fetch through `RestClient` is the `fetched` parameter: a body,
  possibly null, or a client failure.
- JPA persistence and transactions: the repositories are logs of saved
  documents and chunk batches. A rollback of the transaction on a later
  failure is not modelled.
- `Instant.now()` latency and `UUID.randomUUID()` document ids are
  parameters. Chunk ids are random and never read, so chunk records carry
  no id.
- Logging is not modelled.
- Strings are sequences of Unicode scalar values (Dafny `char`), not of
  Java's UTF-16 code units. A character outside the Basic Multilingual Plane
  counts once here and twice in Java. This affects the following:
  - the 2000-character query limit of `QueryRequests.Valid`;
  - the maximum content length of `IngestService.ValidateLength`;
  - `tokensCount` in the response of `IngestService.IngestServiceImpl.Ingest`;
  - where the windows of `TextChunker.Chunk` fall. Java can split a
    surrogate pair between two chunks; the model cannot.
  On text made only of Basic Multilingual Plane characters the two agree.
- IngestService.ValidateLength: the length compared with the maximum is the
  number of Unicode scalar values, not Java's `length()` in UTF-16 code
  units.
- QueryMapper.ParseUuid: `Uuids.FromString` reads ASCII hexadecimal digits
  only. On the slow path of `UUID.fromString` (QueryMapper.java:146),
  `Long.parseLong` reads digits through `Character.digit`. That also accepts
  the other Unicode decimal digits and the fullwidth letters A to F. A
  string of those is a UUID in Java and null here.
- QueryMapper.ParseInt: `JavaText.ParseInt` reads ASCII digits only.
  `Integer.parseInt` also reads the other Unicode decimal digits, so that
  "\u0661" (ARABIC-INDIC DIGIT ONE) gives 1 in Java and 0 here.
- `Double.parseDouble` is modelled on decimal notation (sign, digits, point,
  exponent, type suffix) with exact values. It covers no rounding to binary,
  `NaN`, `Infinity` or hexadecimal literals. Scores and thresholds are
  `real`.
- TextChunker.Chunk: requires a positive `chunkSize` and, on texts longer
  than one window, an effective overlap below it. Elsewhere the source
  throws (negative size) or loops forever (zero size, or an overlap as large
  as the size).
- IngestService.IngestServiceImpl.Ingest: requires that the chunker finish
  on the admitted content (`Terminates`). That means one window covers the
  whole content, or the windows advance. A refused request is answered under
  any configuration. Where Java would throw or loop forever on admitted
  content, the model gives no result. The defaults 800/200 always meet the
  requirement (`DefaultChunkingTerminates`).
- The ingest request is the one `IngestServiceImpl` reads: source, title,
  tags, text and URL. `hasText`/`hasUrl` are taken as `StringUtils.hasText`
  of the field. The file-based request DTO does not match it and is not
  part of this model.
- `domain/Source.java` is not part of this model. Its record is built from
  its constructor calls in the mapper.
- The Spring-wrapper `domain/support/TextChunker.java` delegates to a token
  splitter whose logic is not visible. It is not modelled.
- `System.lineSeparator()` is fixed to "\n".
- Configuration: only the properties the core reads, with their declared
  defaults.
- Building a Spring AI document with a null source or title fails inside
  the library. That failure is modelled as a collaborator failure
  (`Embeddable`), not by its exception type.
