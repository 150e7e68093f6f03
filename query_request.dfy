/** The body of a query or answer call, with its bean-validation constraints. */
module QueryRequests {
  import opened Wrappers
  import opened JavaText
  import Uuids

  /** Every component may be null (`None`); `tags` elements too. */
  datatype QueryRequest = QueryRequest(
    query: Option<string>,
    topK: Option<int>,
    similarityThreshold: Option<real>,
    source: Option<string>,
    tags: Option<seq<Option<string>>>,
    documentId: Option<Uuids.Uuid>,
    stream: Option<bool>)

  /** `@NotBlank`: not null and not empty once `String.trim` has run. */
  predicate NotBlank(s: Option<string>) {
    s.Some? && Trim(s.value) != []
  }

  /** `@Size(max = n)`: null passes. */
  predicate SizeAtMost(s: Option<string>, n: nat) {
    s.None? || |s.value| <= n
  }

  /** `@Min(1)`: null passes. */
  predicate MinOne(n: Option<int>) {
    n.None? || n.value >= 1
  }

  /** `@DecimalMin("0.0")` and `@DecimalMax("1.0")`, both inclusive: null passes. */
  predicate UnitInterval(x: Option<real>) {
    x.None? || 0.0 <= x.value <= 1.0
  }

  /** Every non-null tag is at most 50 characters. */
  predicate TagsValid(tags: Option<seq<Option<string>>>) {
    tags.None? || forall i :: 0 <= i < |tags.value| ==> SizeAtMost(tags.value[i], 50)
  }

  /** The request passes bean validation. */
  predicate Valid(r: QueryRequest) {
    && NotBlank(r.query) && SizeAtMost(r.query, 2000)
    && MinOne(r.topK)
    && UnitInterval(r.similarityThreshold)
    && SizeAtMost(r.source, 100)
    && TagsValid(r.tags)
  }

  /** A request with nothing but a query of at most 2000 characters that
      starts with a visible character is valid. */
  lemma ValidQueryOnly(q: string)
    requires 0 < |q| <= 2000 && q[0] > ' '
    ensures Valid(QueryRequest(Some(q), None, None, None, None, None, None))
  {
    assert !IsTrimmed(q[0]);
  }
}
