/** The proxy's `get` handler: a read of `data` is redirected to the resource when the suspense or
    the error-boundary condition holds; every other read returns the stored field. */
module ResultInterceptor {
  import opened QueryTypes
  import opened SuspenseAdapter

  /** The fields of a result a consumer can read. */
  datatype Prop =
    | DataProp | ErrorProp | StatusProp | FetchStatusProp
    | IsLoadingProp | IsErrorProp | IsSuccessProp | IsFetchingProp
    | FailureCountProp | DataUpdatedAtProp | ErrorUpdatedAtProp | IsStaleProp

  /** `Reflect.get(target, prop)` on the stored result. */
  function Field<D, E>(s: QueryResult<D, E>, p: Prop): FieldValue<D, E> {
    match p
    case DataProp => DataValue(s.data)
    case ErrorProp => ErrorValue(s.error)
    case StatusProp => StatusValue(s.status)
    case FetchStatusProp => FetchStatusValue(s.fetchStatus)
    case IsLoadingProp => BoolValue(s.IsLoading())
    case IsErrorProp => BoolValue(s.IsError())
    case IsSuccessProp => BoolValue(s.IsSuccess())
    case IsFetchingProp => BoolValue(s.IsFetching())
    case FailureCountProp => NumberValue(s.failureCount)
    case DataUpdatedAtProp => NumberValue(s.dataUpdatedAt)
    case ErrorUpdatedAtProp => NumberValue(s.errorUpdatedAt)
    case IsStaleProp => BoolValue(s.isStale)
  }

  /** `isSuspense`: the first load is still in flight under suspense. */
  predicate SuspenseRedirect<O, D, E>(o: Options<O>, s: QueryResult<D, E>) {
    o.suspense && s.IsLoading() && s.IsFetching()
  }

  /** `isErrorBoundary`: a settled error the boundary wants, while the boundary is not reset. */
  predicate ErrorBoundaryRedirect<O, D, E, Q>(
    o: Options<O>, s: QueryResult<D, E>, isReset: bool, query: Q,
    shouldThrow: (ErrorBoundaryOption, Option<E>, Q) -> bool)
  {
    s.IsError() && !isReset && !s.IsFetching() && shouldThrow(o.useErrorBoundary, s.error, query)
  }

  predicate DataRedirects<O, D, E, Q>(
    o: Options<O>, s: QueryResult<D, E>, isReset: bool, query: Q,
    shouldThrow: (ErrorBoundaryOption, Option<E>, Q) -> bool)
  {
    SuspenseRedirect(o, s) || ErrorBoundaryRedirect(o, s, isReset, query, shouldThrow)
  }

  /** A read of `prop` on the exposed result, given the effective options, the stored result,
      the boundary's reset flag, the resource, the current query and the `shouldThrowError` policy. */
  function Get<O, D, E, Q>(
    o: Options<O>, s: QueryResult<D, E>, isReset: bool, resource: Outcome<D, E>,
    prop: Prop, query: Q, shouldThrow: (ErrorBoundaryOption, Option<E>, Q) -> bool): (r: Read<D, E>)
    ensures !prop.DataProp? ==> r == Returned(Field(s, prop))
    ensures prop.DataProp? && DataRedirects(o, s, isReset, query, shouldThrow) ==> r == Consume(resource)
    ensures prop.DataProp? && !DataRedirects(o, s, isReset, query, shouldThrow) ==> r == Returned(DataValue(s.data))
  {
    if prop.DataProp? && DataRedirects(o, s, isReset, query, shouldThrow) then Consume(resource)
    else Returned(Field(s, prop))
  }

  /** The error-boundary redirect never fires while a fetch is in flight or once the boundary is
      reset; then only the suspense condition can redirect. */
  lemma ErrorBoundaryNeedsSettledUnresetError<O, D, E, Q>(
    o: Options<O>, s: QueryResult<D, E>, isReset: bool, query: Q,
    shouldThrow: (ErrorBoundaryOption, Option<E>, Q) -> bool)
    ensures s.IsFetching() || isReset ==> !ErrorBoundaryRedirect(o, s, isReset, query, shouldThrow)
    ensures s.IsFetching() || isReset ==>
              (DataRedirects(o, s, isReset, query, shouldThrow) <==> SuspenseRedirect(o, s))
  {
  }

  /** Without suspense and without the policy asking to throw, a `data` read is a plain read. */
  lemma PlainReadWithoutSuspenseOrThrow<O, D, E, Q>(
    o: Options<O>, s: QueryResult<D, E>, isReset: bool, resource: Outcome<D, E>,
    query: Q, shouldThrow: (ErrorBoundaryOption, Option<E>, Q) -> bool)
    requires !o.suspense && !shouldThrow(o.useErrorBoundary, s.error, query)
    ensures Get(o, s, isReset, resource, DataProp, query, shouldThrow) == Returned(DataValue(s.data))
  {
  }

  /** A read interrupts its reader only as a redirected `data` read: it suspends only on an
      unsettled resource and throws only the error the resource was rejected with. */
  lemma InterruptsOnlyWhenRedirected<O, D, E, Q>(
    o: Options<O>, s: QueryResult<D, E>, isReset: bool, resource: Outcome<D, E>,
    prop: Prop, query: Q, shouldThrow: (ErrorBoundaryOption, Option<E>, Q) -> bool)
    ensures !Get(o, s, isReset, resource, prop, query, shouldThrow).Returned? ==>
              prop.DataProp? && DataRedirects(o, s, isReset, query, shouldThrow)
    ensures Get(o, s, isReset, resource, prop, query, shouldThrow).Suspended? ==> resource.Unsettled?
    ensures Get(o, s, isReset, resource, prop, query, shouldThrow).Thrown? ==>
              resource == Rejected(Get(o, s, isReset, resource, prop, query, shouldThrow).error)
  {
  }
}
