/**
  Ingestion: a request carrying either text or a URL is validated, its
  content resolved and bounded, a document record saved, the content cut
  into windows, the non-blank windows saved as numbered chunks, and one
  vector-store entry added per chunk with the metadata the query side
  filters on.
*/
module IngestService {
  import opened Wrappers
  import opened JavaText
  import opened Metadata
  import Uuids
  import opened Config
  import opened Collaborators
  import opened TextChunker
  import opened Responses
  import opened Sequences
  import QueryMapper
  import QueryRequests
  import QueryService
  import QueryResults

  const StatusIngested := "INGESTED"
  const RequestMustNotBeNull := "Ingest request must not be null"
  const TextOrUrlRequired := "Either text or url must be provided"
  const OnlyOneOfTextOrUrl := "Provide only one of text or url"
  const UnableToFetch := "Unable to fetch content from url"
  const ContentCannotBeEmpty := "Content cannot be empty"
  const ContentTooLong := "Content exceeds maximum length of "

  /** The request the service reads: document fields plus either a text or a URL. */
  datatype IngestRequest = IngestRequest(
    source: Option<string>,
    title: Option<string>,
    tags: Option<seq<Option<string>>>,
    text: Option<string>,
    url: Option<string>)

  /** What fetching the URL gives: a body (possibly null), or a client exception. */
  datatype FetchOutcome = Fetched(body: Option<string>) | FetchFailed

  // ---------------------------------------------------------------------------
  // Guards

  /** `validateRequest`: non-null, and exactly one of text and URL has text. */
  function ValidateRequest(request: Option<IngestRequest>): (o: Outcome)
    ensures o.Pass? <==> request.Some? && HasText(request.value.text) != HasText(request.value.url)
    ensures request.None? ==> o == Fail(IllegalArgument(RequestMustNotBeNull))
    ensures (request.Some? && !HasText(request.value.text) && !HasText(request.value.url))
      ==> o == Fail(IllegalArgument(TextOrUrlRequired))
    ensures (request.Some? && HasText(request.value.text) && HasText(request.value.url))
      ==> o == Fail(IllegalArgument(OnlyOneOfTextOrUrl))
  {
    if request.None? then Fail(IllegalArgument(RequestMustNotBeNull))
    else
      var hasText := HasText(request.value.text);
      var hasUrl := HasText(request.value.url);
      if !hasText && !hasUrl then Fail(IllegalArgument(TextOrUrlRequired))
      else if hasText && hasUrl then Fail(IllegalArgument(OnlyOneOfTextOrUrl))
      else Pass
  }

  /** `resolveContent`: the trimmed text, or else the fetched body; a failed
      fetch is reported as a bad argument. */
  function ResolveContent(r: IngestRequest, fetched: FetchOutcome): (content: Result<Option<string>>)
    ensures HasText(r.text) ==> content == Ok(Some(Trim(r.text.value)))
    ensures !HasText(r.text) && fetched.FetchFailed? ==> content == Err(IllegalArgument(UnableToFetch))
    ensures !HasText(r.text) && fetched.Fetched? ==> content == Ok(fetched.body)
  {
    if HasText(r.text) then Ok(Some(Trim(r.text.value)))
    else
      match fetched
      case Fetched(body) => Ok(body)
      case FetchFailed => Err(IllegalArgument(UnableToFetch))
  }

  /** `validateLength`: content must be non-null, not blank and at most the maximum. */
  function ValidateLength(content: Option<string>, maxTextLength: int): (o: Outcome)
    ensures o.Pass? <==> content.Some? && !IsBlank(content.value) && |content.value| <= maxTextLength
    ensures content.None? || IsBlank(content.value) ==> o == Fail(IllegalArgument(ContentCannotBeEmpty))
    ensures (content.Some? && !IsBlank(content.value) && |content.value| > maxTextLength)
      ==> o == Fail(IllegalArgument(ContentTooLong + IntToString(maxTextLength)))
  {
    if content.None? || IsBlank(content.value) then Fail(IllegalArgument(ContentCannotBeEmpty))
    else if |content.value| > maxTextLength then Fail(IllegalArgument(ContentTooLong + IntToString(maxTextLength)))
    else Pass
  }

  /** The content `ingest` goes on with once all three guards pass, or the
      first guard's failure. */
  function Admitted(request: Option<IngestRequest>, fetched: FetchOutcome, maxTextLength: int): (content: Result<string>)
    ensures content.Ok? ==> request.Some? && !IsBlank(content.value) && |content.value| <= maxTextLength
    ensures content.Ok? && HasText(request.value.text) ==> content.value == Trim(request.value.text.value)
    ensures content.Ok? && !HasText(request.value.text) ==> fetched == Fetched(Some(content.value))
    ensures content.Err? ==> content.failure.IllegalArgument?
  {
    match ValidateRequest(request)
    case Fail(f) => Err(f)
    case Pass =>
      match ResolveContent(request.value, fetched)
      case Err(f) => Err(f)
      case Ok(c) =>
        match ValidateLength(c, maxTextLength)
        case Fail(f) => Err(f)
        case Pass => Ok(c.value)
  }

  /** A text made of one character up to U+0020 that is not Java whitespace
      (see `ControlCharsAreNotWhitespace`) has text, so it passes the request guard, but it trims to
      nothing and is refused as empty content. */
  lemma InvisibleTextRefused(c: char, source: Option<string>, title: Option<string>, fetched: FetchOutcome)
    requires IsTrimmed(c) && !IsWhitespace(c)
    ensures var r := IngestRequest(source, title, None, Some([c]), None);
      Admitted(Some(r), fetched, 20000) == Err(IllegalArgument(ContentCannotBeEmpty))
  {
    var t := [c];
    var r := IngestRequest(source, title, None, Some(t), None);
    assert HasText(Some(t)) by {
      assert !IsWhitespace(t[0]);
    }
    assert ValidateRequest(Some(r)) == Pass;
    assert Trim(t) == "" by {
      assert IsTrimmed(t[0]) && t[1..] == "";
      assert TrimStart(t) == "";
    }
    assert ResolveContent(r, fetched) == Ok(Some(""));
    assert ValidateLength(Some(""), 20000) == Fail(IllegalArgument(ContentCannotBeEmpty));
  }

  // ---------------------------------------------------------------------------
  // Records

  /** The saved `Document`; its tags are never null. */
  datatype StoredDocument = StoredDocument(
    id: Uuids.Uuid,
    source: Option<string>,
    title: Option<string>,
    tags: seq<Option<string>>,
    createdAt: int)

  /** `new Document(...)`: null tags become an empty list. */
  function NewDocument(id: Uuids.Uuid, source: Option<string>, title: Option<string>,
                       tags: Option<seq<Option<string>>>, createdAt: int): (d: StoredDocument)
    ensures tags.None? ==> d.tags == []
    ensures tags.Some? ==> d.tags == tags.value
    ensures d.id == id && d.source == source && d.title == title && d.createdAt == createdAt
  {
    StoredDocument(id, source, title, if tags.Some? then tags.value else [], createdAt)
  }

  /** A saved `Chunk`: its document's id, its position and its text. */
  datatype ChunkRecord = ChunkRecord(documentId: Uuids.Uuid, index: int, text: string)

  class DocumentRepository {
    /** The documents saved so far, oldest first. */
    var saved: seq<StoredDocument>

    constructor ()
      ensures saved == []
    {
      saved := [];
    }

    /** `save`: stores the document and hands it back. */
    method Save(document: StoredDocument) returns (stored: StoredDocument)
      modifies this
      ensures stored == document && saved == old(saved) + [document]
    {
      saved := saved + [document];
      stored := document;
    }
  }

  class ChunkRepository {
    /** The chunk lists passed to `saveAll`, oldest first. */
    var batches: seq<seq<ChunkRecord>>

    constructor ()
      ensures batches == []
    {
      batches := [];
    }

    /** `saveAll`. */
    method SaveAll(chunks: seq<ChunkRecord>)
      modifies this
      ensures batches == old(batches) + [chunks]
    {
      batches := batches + [chunks];
    }
  }

  // ---------------------------------------------------------------------------
  // Chunks

  /** The chunk texts that are not blank, in order. */
  function KeptTexts(texts: seq<string>): (kept: seq<string>)
    ensures |kept| <= |texts|
  {
    if texts == [] then []
    else
      var rest := KeptTexts(texts[..|texts| - 1]);
      var last := texts[|texts| - 1];
      if IsBlank(last) then rest else rest + [last]
  }

  /** The chunks numbered 0, 1, 2, ... in order. */
  function ChunkRecords(documentId: Uuids.Uuid, texts: seq<string>): seq<ChunkRecord> {
    seq(|texts|, i requires 0 <= i < |texts| => ChunkRecord(documentId, i, texts[i]))
  }

  /** A text is kept exactly when it is one of the inputs and not blank. */
  lemma {:induction false} KeptTextsMembers(texts: seq<string>)
    ensures forall t :: t in KeptTexts(texts) <==> t in texts && !IsBlank(t)
  {
    if texts != [] {
      var init := texts[..|texts| - 1];
      KeptTextsMembers(init);
      assert texts == init + [texts[|texts| - 1]];
    }
  }

  /** The kept texts keep the chunker's order. */
  lemma {:induction false} KeptTextsInOrder(texts: seq<string>)
    ensures IsSubsequence(KeptTexts(texts), texts)
  {
    if texts != [] {
      var init := texts[..|texts| - 1];
      KeptTextsInOrder(init);
      var kept := KeptTexts(texts);
      if !IsBlank(texts[|texts| - 1]) {
        assert kept[..|kept| - 1] == KeptTexts(init);
      }
    }
  }

  lemma BlankConcat(a: string, b: string)
    requires IsBlank(a) && IsBlank(b)
    ensures IsBlank(a + b)
  {
    assert forall i :: |a| <= i < |a + b| ==> (a + b)[i] == b[i - |a|];
  }

  lemma {:induction false} BlankDropOverlaps(chunks: seq<string>, overlap: nat)
    requires forall i :: 0 <= i < |chunks| ==> IsBlank(chunks[i])
    ensures IsBlank(DropOverlaps(chunks, overlap))
  {
    if chunks != [] {
      BlankDropOverlaps(chunks[1..], overlap);
      var first := if overlap <= |chunks[0]| then chunks[0][overlap..] else "";
      assert IsBlank(first) by {
        if overlap <= |chunks[0]| {
          assert forall i :: 0 <= i < |first| ==> first[i] == chunks[0][i + overlap];
        }
      }
      BlankConcat(first, DropOverlaps(chunks[1..], overlap));
    }
  }

  /** Content that is not blank always leaves at least one chunk to store. */
  lemma NonBlankContentKeepsAChunk(content: string, chunkSize: int, overlap: int)
    requires !IsBlank(content) && Terminates(Some(content), chunkSize, overlap)
    ensures KeptTexts(Chunks(Some(content), chunkSize, overlap)) != []
  {
    var chunks := Chunks(Some(content), chunkSize, overlap);
    var e := EffectiveOverlap(chunkSize, overlap);
    KeptTextsMembers(chunks);
    if forall i :: 0 <= i < |chunks| ==> IsBlank(chunks[i]) {
      ReassembleChunks(Some(content), chunkSize, overlap);
      BlankDropOverlaps(chunks[1..], e);
      BlankConcat(chunks[0], DropOverlaps(chunks[1..], e));
      assert false;
    }
  }

  /** The default windows (800 characters, 200 of overlap) always advance. */
  lemma DefaultChunkingTerminates(text: Option<string>)
    ensures Terminates(text, DefaultIngestProperties.chunkSize, DefaultIngestProperties.chunkOverlap)
    ensures EffectiveOverlap(DefaultIngestProperties.chunkSize, DefaultIngestProperties.chunkOverlap) == 200
  {
  }

  // ---------------------------------------------------------------------------
  // Vector-store entries

  /** The list value of the document's tags; null tags stay null. */
  function TagValues(tags: seq<Option<string>>): (items: seq<Option<Value>>)
    ensures |items| == |tags|
  {
    seq(|tags|, i requires 0 <= i < |tags| => if tags[i].Some? then Some(Str(tags[i].value)) else None)
  }

  /** Whether a vector document can be built: the Spring AI document refuses
      null metadata values, and source or title may be null. */
  predicate Embeddable(document: StoredDocument) {
    document.source.Some? && document.title.Some?
  }

  /** The metadata `storeEmbeddings` attaches to a chunk. */
  function ChunkMetadata(document: StoredDocument, chunk: ChunkRecord): Bag
    requires Embeddable(document)
  {
    map["documentId" := Str(Uuids.ToString(document.id)), "chunkIndex" := IntNum(chunk.index),
        "source" := Str(document.source.value), "title" := Str(document.title.value),
        "tags" := ListVal(TagValues(document.tags))]
  }

  /** One vector document per chunk, in order: the chunk's text and its metadata. */
  function Embeddings(document: StoredDocument, chunks: seq<ChunkRecord>): (entries: seq<VectorDocument>)
    requires Embeddable(document)
    ensures |entries| == |chunks|
  {
    seq(|chunks|, i requires 0 <= i < |chunks| => VectorDocument(chunks[i].text, ChunkMetadata(document, chunks[i])))
  }

  /** What the query side reads back from a stored chunk: its document id,
      title, index, source and tags. The snippet is empty and the score 0.0,
      since the metadata holds neither content nor score. */
  lemma ChunkReadsBack(document: StoredDocument, chunk: ChunkRecord, tags: seq<string>)
    requires Embeddable(document) && InIntRange(chunk.index)
    requires |tags| == |document.tags| && forall i :: 0 <= i < |tags| ==> document.tags[i] == Some(tags[i])
    ensures QueryMapper.SourceOf(VectorDocument(chunk.text, ChunkMetadata(document, chunk)))
      == QueryResults.Source(Some(document.id), document.title, chunk.index, "", 0.0, document.source, tags)
  {
    var m := ChunkMetadata(document, chunk);
    var items := TagValues(document.tags);
    assert Get(m, "documentId") == Some(Str(Uuids.ToString(document.id)));
    assert Get(m, "title") == Some(Str(document.title.value));
    assert Get(m, "chunkIndex") == Some(IntNum(chunk.index));
    assert Get(m, "source") == Some(Str(document.source.value));
    assert Get(m, "tags") == Some(ListVal(items));
    assert forall i :: 0 <= i < |items| ==> items[i] == Some(Str(tags[i]));
    assert "score" !in m && "distance" !in m && "content" !in m && "text" !in m;
    QueryMapper.SourceOfStoredFields(m, chunk.text, document.id, document.title.value, chunk.index,
                                     document.source.value, items, tags, 0.0);
  }

  /** A stored chunk survives the query filters of a request for its own
      document id, source and tags. */
  lemma ChunkPassesQueryFilters(document: StoredDocument, chunk: ChunkRecord, query: string, threshold: real)
    requires Embeddable(document)
    ensures var r := QueryRequests.QueryRequest(Some(query), None, None, document.source, Some(document.tags),
                                                Some(document.id), None);
      QueryService.Keep(VectorDocument(chunk.text, ChunkMetadata(document, chunk)), r, threshold)
  {
    var m := ChunkMetadata(document, chunk);
    var items := TagValues(document.tags);
    assert ListContainsAll(items, document.tags) by {
      forall j | 0 <= j < |document.tags|
        ensures ListContains(items, document.tags[j])
      {
        assert ElementEquals(items[j], document.tags[j]);
      }
    }
    assert QueryService.ParseScore(m) == 0.0;
  }

  // ---------------------------------------------------------------------------
  // The service

  class IngestServiceImpl {
    const documentRepository: DocumentRepository
    const chunkRepository: ChunkRepository
    const vectorStore: VectorStore
    const ingestProperties: IngestProperties

    constructor (documentRepository: DocumentRepository, chunkRepository: ChunkRepository,
                 vectorStore: VectorStore, ingestProperties: IngestProperties)
      ensures this.documentRepository == documentRepository && this.chunkRepository == chunkRepository
      ensures this.vectorStore == vectorStore && this.ingestProperties == ingestProperties
    {
      this.documentRepository := documentRepository;
      this.chunkRepository := chunkRepository;
      this.vectorStore := vectorStore;
      this.ingestProperties := ingestProperties;
    }

    /** `persistChunks`: the non-blank texts, numbered from 0 in order, and
        one `saveAll` when there is at least one. */
    method PersistChunks(document: StoredDocument, chunkTexts: seq<string>) returns (chunks: seq<ChunkRecord>)
      modifies chunkRepository
      ensures chunks == ChunkRecords(document.id, KeptTexts(chunkTexts))
      ensures chunks == [] ==> chunkRepository.batches == old(chunkRepository.batches)
      ensures chunks != [] ==> chunkRepository.batches == old(chunkRepository.batches) + [chunks]
    {
      chunks := [];
      var index := 0;
      for i := 0 to |chunkTexts|
        invariant index == |chunks| == |KeptTexts(chunkTexts[..i])|
        invariant chunks == ChunkRecords(document.id, KeptTexts(chunkTexts[..i]))
      {
        assert chunkTexts[..i + 1][..i] == chunkTexts[..i];
        var chunkText := chunkTexts[i];
        if IsBlank(chunkText) {
          continue;
        }
        chunks := chunks + [ChunkRecord(document.id, index, chunkText)];
        index := index + 1;
      }
      assert chunkTexts[..|chunkTexts|] == chunkTexts;
      if chunks != [] {
        chunkRepository.SaveAll(chunks);
      }
    }

    /** `storeEmbeddings`: one `add` of one vector document per chunk, in
        order; nothing when there are no chunks. Building a vector document
        fails when the document's source or title is null. */
    method StoreEmbeddings(document: StoredDocument, chunks: seq<ChunkRecord>) returns (outcome: Outcome)
      modifies vectorStore
      ensures vectorStore.searches == old(vectorStore.searches)
      ensures chunks == [] ==> outcome == Pass && vectorStore.added == old(vectorStore.added)
      ensures chunks != [] && !Embeddable(document) ==>
        outcome == Fail(CollaboratorFailure) && vectorStore.added == old(vectorStore.added)
      ensures chunks != [] && Embeddable(document) ==>
        outcome == Pass && vectorStore.added == old(vectorStore.added) + Embeddings(document, chunks)
    {
      if chunks == [] {
        return Pass;
      }
      var vectorDocuments: seq<VectorDocument> := [];
      for i := 0 to |chunks|
        invariant i > 0 ==> Embeddable(document)
        invariant Embeddable(document) ==> vectorDocuments == Embeddings(document, chunks[..i])
      {
        var chunk := chunks[i];
        var metadata: Bag := map[];
        metadata := metadata["documentId" := Str(Uuids.ToString(document.id))];
        metadata := metadata["chunkIndex" := IntNum(chunk.index)];
        if document.source.None? || document.title.None? {
          return Fail(CollaboratorFailure);
        }
        metadata := metadata["source" := Str(document.source.value)];
        metadata := metadata["title" := Str(document.title.value)];
        metadata := metadata["tags" := ListVal(TagValues(document.tags))];
        assert metadata == ChunkMetadata(document, chunk);
        vectorDocuments := vectorDocuments + [VectorDocument(chunk.text, metadata)];
      }
      assert chunks[..|chunks|] == chunks;
      vectorStore.Add(vectorDocuments);
      outcome := Pass;
    }

    /** `ingest`. Every guard runs before anything is saved; then the
        document is saved, its content chunked, the non-blank chunks saved and
        embedded, and the response reports the document id, the number of
        chunks and the content's length. Refused requests are answered under
        any configuration; admitted content must be one the chunker finishes
        on (one window, or windows that advance). */
    method Ingest(request: Option<IngestRequest>, fetched: FetchOutcome, documentId: Uuids.Uuid, createdAt: int)
      returns (result: Result<IngestResponse>)
      requires Admitted(request, fetched, ingestProperties.maxTextLength).Ok? ==>
        Terminates(Some(Admitted(request, fetched, ingestProperties.maxTextLength).value),
                   ingestProperties.chunkSize, ingestProperties.chunkOverlap)
      modifies documentRepository, chunkRepository, vectorStore
      ensures vectorStore.searches == old(vectorStore.searches)
      ensures Admitted(request, fetched, ingestProperties.maxTextLength).Err? ==>
        && result == Err(Admitted(request, fetched, ingestProperties.maxTextLength).failure)
        && documentRepository.saved == old(documentRepository.saved)
        && chunkRepository.batches == old(chunkRepository.batches)
        && vectorStore.added == old(vectorStore.added)
      ensures Admitted(request, fetched, ingestProperties.maxTextLength).Ok? ==>
        var content := Admitted(request, fetched, ingestProperties.maxTextLength).value;
        var r := request.value;
        var document := NewDocument(documentId, r.source, r.title, r.tags, createdAt);
        var chunks := ChunkRecords(documentId, KeptTexts(Chunks(Some(content), ingestProperties.chunkSize, ingestProperties.chunkOverlap)));
        && chunks != []
        && documentRepository.saved == old(documentRepository.saved) + [document]
        && chunkRepository.batches == old(chunkRepository.batches) + [chunks]
        && (Embeddable(document) ==>
              && vectorStore.added == old(vectorStore.added) + Embeddings(document, chunks)
              && result == Ok(IngestResponse(documentId, |chunks|, |content|, StatusIngested)))
        && (!Embeddable(document) ==>
              result == Err(CollaboratorFailure) && vectorStore.added == old(vectorStore.added))
    {
      var validation := ValidateRequest(request);
      if validation.Fail? {
        return Err(validation.failure);
      }
      var r := request.value;
      var resolved := ResolveContent(r, fetched);
      if resolved.Err? {
        return Err(resolved.failure);
      }
      var content := resolved.value;
      var length := ValidateLength(content, ingestProperties.maxTextLength);
      if length.Fail? {
        return Err(length.failure);
      }
      var document := documentRepository.Save(NewDocument(documentId, r.source, r.title, r.tags, createdAt));
      var chunkTexts := Chunk(content, ingestProperties.chunkSize, ingestProperties.chunkOverlap);
      NonBlankContentKeepsAChunk(content.value, ingestProperties.chunkSize, ingestProperties.chunkOverlap);
      var persistedChunks := PersistChunks(document, chunkTexts);
      var stored := StoreEmbeddings(document, persistedChunks);
      if stored.Fail? {
        return Err(stored.failure);
      }
      var tokensCount := |content.value|;
      result := Ok(IngestResponse(document.id, |persistedChunks|, tokensCount, StatusIngested));
    }
  }
}
