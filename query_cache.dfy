/**
  The admission rule of the default query cache: which results of a
  request may be written to the cache.
 */
module QueryCache {
  import opened Options

  /** The operation kinds of a GraphQL operation definition. */
  datatype OperationType = Query | Mutation | Subscription

  /** An error reported on a result; only its presence matters here. */
  datatype Error = Error(message: string)

  /** What a request produced: one complete query result with an optional
      error list, or a stream of results (deferred or subscription
      payloads) that is never a single complete result. */
  datatype ExecutionResult =
    | QueryResult(errors: Option<seq<Error>>)
    | ResponseStream

  /** The parts of the request context the rule reads: the result, which
      may be missing, and the operation type of the executed operation,
      missing when no operation was resolved. */
  datatype RequestContext = RequestContext(result: Option<ExecutionResult>, operation: Option<OperationType>)

  /** True when the error list is present and not empty; a missing list
      counts as no errors. */
  predicate HasErrors(errors: Option<seq<Error>>)
  {
    errors.Some? && |errors.value| > 0
  }

  /** `ShouldCacheResult`: the checks run in the order of the source and
      each failing check answers false. */
  function ShouldCacheResult(context: RequestContext): (r: bool)
    ensures r <==> && context.result.Some? && context.result.value.QueryResult?
                   && context.operation == Some(Query)
                   && !HasErrors(context.result.value.errors)
    ensures context.result.None? || context.result.value.ResponseStream? ==> !r
    ensures context.operation != Some(Query) ==> !r
    ensures (&& context.result.Some? && context.result.value.QueryResult?
             && context.result.value.errors.Some? && |context.result.value.errors.value| > 0) ==> !r
  {
    if context.result.None? || !context.result.value.QueryResult? then
      false
    else if context.operation.None? || context.operation.value != Query then
      false
    else if HasErrors(context.result.value.errors) then
      false
    else
      true
  }

  /** Whether a query result is cached depends only on its errors: an
      absent list and an empty list are admitted alike, and one error is
      enough to refuse it. */
  lemma ErrorsDecideQueryResults(errors: Option<seq<Error>>, e: Error)
    ensures ShouldCacheResult(RequestContext(Some(QueryResult(None)), Some(Query)))
    ensures ShouldCacheResult(RequestContext(Some(QueryResult(Some([]))), Some(Query)))
    ensures !ShouldCacheResult(RequestContext(Some(QueryResult(Some([e]))), Some(Query)))
    ensures ShouldCacheResult(RequestContext(Some(QueryResult(errors)), Some(Query))) <==>
      errors.None? || errors.value == []
  {
  }

  /** Only queries are cached: the same result under a mutation, a
      subscription or no operation is refused. */
  lemma OnlyQueriesAreCached(result: ExecutionResult, operation: Option<OperationType>)
    requires ShouldCacheResult(RequestContext(Some(result), operation))
    ensures operation == Some(Query)
    ensures !ShouldCacheResult(RequestContext(Some(result), Some(Mutation)))
    ensures !ShouldCacheResult(RequestContext(Some(result), Some(Subscription)))
    ensures !ShouldCacheResult(RequestContext(Some(result), None))
  {
  }
}
