/** Values the Solid bridge exchanges with the query engine and with the reactive runtime.
    The engine's own types are reduced to the fields the bridge reads or republishes. */
module QueryTypes {

  datatype Option<+T> = None | Some(value: T)

  /** The `_optimisticResults` option. */
  datatype OptimisticResults = NotOptimistic | Optimistic | IsRestoring

  /** `staleTime` as JavaScript holds it: `undefined`, a finite number of milliseconds, or `Infinity`. */
  datatype StaleTime = StaleUndefined | StaleMs(ms: real) | StaleInfinity
  {
    /** `typeof staleTime === 'number'` */
    predicate IsNumber() { !StaleUndefined? }
  }

  /** The stale time injected under suspense when none is a number. */
  const SuspenseStaleTime: StaleTime := StaleMs(1000.0)

  /** `useErrorBoundary`: unset, a boolean, or a callback `(error, query) => boolean` named by an id. */
  datatype ErrorBoundaryOption = ErrorBoundaryUnset | ErrorBoundaryFlag(on: bool) | ErrorBoundaryCallback(id: nat)
  {
    /** JavaScript truthiness: `true` and every function are truthy. */
    predicate IsTruthy() { (ErrorBoundaryFlag? && on) || ErrorBoundaryCallback? }
  }

  /** The options record after the client's defaults were merged in. The bridge reads or writes
      only the named fields; `rest` stands for all others (key, query function, enabled, retry, ...). */
  datatype Options<O> = Options(
    optimisticResults: OptimisticResults,
    suspense: bool,
    useErrorBoundary: ErrorBoundaryOption,
    staleTime: StaleTime,
    retryOnMount: Option<bool>,
    rest: O)

  datatype Status = LoadingStatus | ErrorStatus | SuccessStatus

  datatype FetchStatus = Fetching | Paused | Idle

  /** An observer result; the boolean flags are derived from the two statuses as the engine derives them. */
  datatype QueryResult<D, E> = QueryResult(
    status: Status,
    fetchStatus: FetchStatus,
    data: Option<D>,
    error: Option<E>,
    failureCount: nat,
    dataUpdatedAt: int,
    errorUpdatedAt: int,
    isStale: bool)
  {
    predicate IsLoading() { status.LoadingStatus? }
    predicate IsError() { status.ErrorStatus? }
    predicate IsSuccess() { status.SuccessStatus? }
    predicate IsFetching() { fetchStatus.Fetching? }
  }

  /** The value of one field of a result. */
  datatype FieldValue<D, E> =
    | DataValue(data: Option<D>)
    | ErrorValue(error: Option<E>)
    | StatusValue(status: Status)
    | FetchStatusValue(fetchStatus: FetchStatus)
    | BoolValue(flag: bool)
    | NumberValue(number: int)

  /** What a property read on the exposed result does: return a value, suspend the reader,
      or throw into the enclosing error boundary. */
  datatype Read<D, E> = Returned(value: FieldValue<D, E>) | Suspended | Thrown(error: Option<E>)
}
