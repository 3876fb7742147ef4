/** The `createResource` adapter: every observer notification re-runs the fetcher with the
    notified result, and the fetcher's promise settles according to that result alone. */
module SuspenseAdapter {
  import opened QueryTypes

  /** How the fetcher's promise for the latest run stands. */
  datatype Outcome<D, E> = Unsettled | Resolved(data: Option<D>) | Rejected(error: Option<E>)

  /** Solid's `resource.state`. */
  datatype ResourceState = Unresolved | Pending | Ready | Refreshing | Errored
  {
    /** Membership in `trackStates`. */
    predicate IsTracked() { Pending? || Ready? || Errored? }
  }

  /** The fetcher run with `info.refetching`, which is `false` (here `None`) on the first run
      and the notified result on every `refetch(result)`. */
  function Fetch<D, E>(refetching: Option<QueryResult<D, E>>): (o: Outcome<D, E>)
    ensures o.Resolved? <==> refetching.Some? && refetching.value.IsSuccess()
    ensures o.Resolved? ==> o.data == refetching.value.data
    ensures o.Rejected? <==>
              refetching.Some? && !refetching.value.IsSuccess()
              && refetching.value.IsError() && !refetching.value.IsFetching()
    ensures o.Rejected? ==> o.error == refetching.value.error
  {
    match refetching
    case None => Unsettled
    case Some(r) =>
      if r.IsSuccess() then Resolved(r.data)
      else if r.IsError() && !r.IsFetching() then Rejected(r.error)
      else Unsettled
  }

  /** Reading `dataResource()` inside a suspense boundary: an unsettled promise suspends the
      reader, a resolved one yields its value, a rejected one throws its error. */
  function Consume<D, E>(o: Outcome<D, E>): (r: Read<D, E>)
    ensures r.Suspended? <==> o.Unsettled?
    ensures r.Returned? <==> o.Resolved?
    ensures o.Resolved? ==> r.value == DataValue(o.data)
    ensures r.Thrown? ==> o == Rejected(r.error)
  {
    match o
    case Unsettled => Suspended
    case Resolved(d) => Returned(DataValue(d))
    case Rejected(e) => Thrown(e)
  }

  /** What a redirected `data` read yields right after a notification of `r`. */
  lemma ReadAfterNotification<D, E>(r: QueryResult<D, E>)
    ensures r.IsSuccess() ==> Consume(Fetch(Some(r))) == Returned(DataValue(r.data))
    ensures r.IsError() && !r.IsFetching() ==> Consume(Fetch(Some(r))) == Thrown(r.error)
    ensures r.IsLoading() || (r.IsError() && r.IsFetching()) ==> Consume(Fetch(Some(r))) == Suspended
  {
  }
}
