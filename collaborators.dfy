/**
  The Spring AI collaborators of the query and ingest services: the vector
  store and the chat model. Their behaviour is foreign, so each is an
  oracle (a fixed function from request to outcome) that also records the
  calls made on it.
*/
module Collaborators {
  import opened Wrappers
  import opened Metadata

  /** A portable metadata filter. */
  datatype FilterExpr =
    | Eq(key: string, value: string)
    | In(key: string, values: seq<Option<string>>)
    | And(left: FilterExpr, right: FilterExpr)

  /** The meaning a store gives a filter over a document's metadata: `Eq`
      asks for the key's value to print as the given text, `In` for the
      value, or one element of a list value, to be one of the given strings. */
  predicate Matches(f: FilterExpr, m: Bag) {
    match f
    case Eq(key, value) => key in m && Show(m[key]) == value
    case In(key, values) => key in m && InValues(m[key], values)
    case And(left, right) => Matches(left, m) && Matches(right, m)
  }

  /** A string value that is one of `values`, or a list holding one of them. */
  predicate InValues(v: Value, values: seq<Option<string>>) {
    match v
    case Str(s) => Some(s) in values
    case ListVal(items) => exists j :: 0 <= j < |values| && ListContains(items, values[j])
    case _ => false
  }

  /** What the document retriever asks the store for. */
  datatype SearchRequest = SearchRequest(query: string, topK: int, similarityThreshold: real, filter: Option<FilterExpr>)

  /** What a search yields: a list of documents, null, or an exception. */
  datatype SearchOutcome = Found(documents: seq<VectorDocument>) | NoList | SearchFailed

  /** The prompt the RAG template renders from a question and a context. */
  datatype Prompt = Prompt(question: string, context: string)

  /** Token usage reported by the model; either count may be absent. */
  datatype Usage = Usage(promptTokens: Option<int>, completionTokens: Option<int>)

  /** The text of the model's first generation and its usage metadata. */
  datatype ChatResponse = ChatResponse(text: Option<string>, usage: Option<Usage>)

  datatype ChatOutcome = Replied(response: ChatResponse) | ChatFailed

  class VectorStore {
    /** The store's answer to each search. */
    const search: SearchRequest -> SearchOutcome
    /** The searches made so far, oldest first. */
    var searches: seq<SearchRequest>
    /** The documents added so far, oldest first. */
    var added: seq<VectorDocument>

    constructor (search: SearchRequest -> SearchOutcome)
      ensures this.search == search && searches == [] && added == []
    {
      this.search := search;
      searches := [];
      added := [];
    }

    /** `similaritySearch`. */
    method SimilaritySearch(request: SearchRequest) returns (outcome: SearchOutcome)
      modifies this
      ensures outcome == search(request)
      ensures searches == old(searches) + [request] && added == old(added)
    {
      outcome := search(request);
      searches := searches + [request];
    }

    /** `add`: embeds and stores the documents. */
    method Add(documents: seq<VectorDocument>)
      modifies this
      ensures added == old(added) + documents && searches == old(searches)
    {
      added := added + documents;
    }
  }

  class ChatModel {
    /** The model's answer to each prompt. */
    const reply: Prompt -> ChatOutcome
    /** The prompts sent through `call`, oldest first. */
    var calls: seq<Prompt>
    /** The prompts sent through `stream`, oldest first. */
    var streams: seq<Prompt>

    constructor (reply: Prompt -> ChatOutcome)
      ensures this.reply == reply && calls == [] && streams == []
    {
      this.reply := reply;
      calls := [];
      streams := [];
    }

    /** `call`: one blocking completion. */
    method Call(prompt: Prompt) returns (outcome: ChatOutcome)
      modifies this
      ensures outcome == reply(prompt)
      ensures calls == old(calls) + [prompt] && streams == old(streams)
    {
      outcome := reply(prompt);
      calls := calls + [prompt];
    }

    /** `stream`: opens a streamed completion. */
    method Stream(prompt: Prompt)
      modifies this
      ensures streams == old(streams) + [prompt] && calls == old(calls)
    {
      streams := streams + [prompt];
    }
  }
}
