/** `createBaseQuery` as an object: the state one call keeps and the effects that change it. Each
    event method leaves the object in the state `Lifecycle.Step` gives for that event, so every
    trace lemma of `Lifecycle` holds of any sequence of calls. */
module CreateBaseQuery {
  import opened QueryTypes
  import opened OptionResolver
  import opened SuspenseAdapter
  import ResultInterceptor
  import opened Lifecycle

  /** The enclosing error reset boundary, shared by every query beneath it. */
  class ErrorResetBoundary {
    var isReset: bool
    ghost var clearResetCalls: nat

    constructor (isReset: bool)
      ensures this.isReset == isReset && clearResetCalls == 0
    {
      this.isReset := isReset;
      clearResetCalls := 0;
    }

    method Reset()
      modifies this
      ensures isReset && clearResetCalls == old(clearResetCalls)
    {
      isReset := true;
    }

    method ClearReset()
      modifies this
      ensures !isReset && clearResetCalls == old(clearResetCalls) + 1
    {
      isReset := false;
      clearResetCalls := clearResetCalls + 1;
    }
  }

  class BaseQuery<D, E, O, Q> {
    const boundary: ErrorResetBoundary
    /** `shouldThrowError(useErrorBoundary, [error, query])`. */
    const shouldThrow: (ErrorBoundaryOption, Option<E>, Q) -> bool
    var subscribed: bool
    var mounted: bool
    var options: Options<O>
    var setOptionsCalls: seq<SetOptionsCall<O>>
    var resource: Outcome<D, E>
    var state: QueryResult<D, E>

    ghost function Model(): Bridge<D, E, O>
      reads this, boundary
    {
      Bridge(subscribed, mounted, options, setOptionsCalls, boundary.isReset, boundary.clearResetCalls, resource, state)
    }

    /** Runs the memo once, fills the store with the observer's optimistic result, runs the fetcher
        with `refetching` false and subscribes. Then the store-sync computation, which is not
        deferred, runs for the first time: the resource is `pending`, so the store becomes the
        observer's current result. The deferred options computation calls nothing. */
    constructor (defaulted: Options<O>, boundary: ErrorResetBoundary, optimistic: QueryResult<D, E>,
                 current: QueryResult<D, E>, shouldThrow: (ErrorBoundaryOption, Option<E>, Q) -> bool)
      ensures this.boundary == boundary && this.shouldThrow == shouldThrow
      ensures subscribed && !mounted && setOptionsCalls == []
      ensures options == EffectiveOptions(defaulted, boundary.isReset)
      ensures resource == Unsettled && state == current
      ensures Model() == Init(defaulted, boundary.isReset, boundary.clearResetCalls, optimistic, current)
    {
      this.boundary := boundary;
      this.shouldThrow := shouldThrow;
      var computed := ResolveOptions(defaulted, boundary.isReset);
      options := computed;
      state := optimistic;
      resource := Fetch(None);
      subscribed := true;
      mounted := false;
      setOptionsCalls := [];
      new;
      SyncStore(Pending, current);
    }

    /** The observer's listener: `refetch(result)` re-runs the fetcher with the notified result.
        Once unsubscribed, the observer no longer calls it. */
    method Notify(result: QueryResult<D, E>)
      modifies this
      ensures resource == if old(subscribed) then Fetch(Some(result)) else old(resource)
      ensures subscribed == old(subscribed) && mounted == old(mounted) && options == old(options)
      ensures setOptionsCalls == old(setOptionsCalls) && state == old(state)
      ensures Model() == Step(old(Model()), Notified(result))
    {
      if subscribed {
        resource := Fetch(Some(result));
      }
    }

    /** `onMount`: apply the current options without notifying listeners. */
    method Mount()
      modifies this
      ensures mounted
      ensures setOptionsCalls == old(setOptionsCalls) + [SetOptionsCall(options, false)]
      ensures subscribed == old(subscribed) && options == old(options)
      ensures resource == old(resource) && state == old(state)
      ensures Model() == Step(old(Model()), Mounted)
    {
      mounted := true;
      setOptionsCalls := setOptionsCalls + [SetOptionsCall(options, false)];
    }

    /** The memo re-runs on new caller options, and the deferred computation re-applies its
        value with notification. */
    method OptionsChanged(defaulted: Options<O>)
      modifies this
      ensures options == EffectiveOptions(defaulted, boundary.isReset)
      ensures setOptionsCalls == old(setOptionsCalls) + [SetOptionsCall(options, true)]
      ensures subscribed == old(subscribed) && mounted == old(mounted)
      ensures resource == old(resource) && state == old(state)
      ensures Model() == Step(old(Model()), OptionsRecomputed(defaulted))
    {
      var computed := ResolveOptions(defaulted, boundary.isReset);
      options := computed;
      setOptionsCalls := setOptionsCalls + [SetOptionsCall(computed, true)];
    }

    /** The reset effect: clear the boundary's flag if it is set. */
    method ResetEffect()
      modifies boundary
      ensures !boundary.isReset
      ensures boundary.clearResetCalls == old(boundary.clearResetCalls) + (if old(boundary.isReset) then 1 else 0)
      ensures Model() == Step(old(Model()), ResetEffectRan)
    {
      if boundary.isReset {
        boundary.ClearReset();
      }
    }

    /** The computation on `dataResource.state`: in a tracked state the store is replaced
        wholesale by the observer's current result. */
    method SyncStore(resourceState: ResourceState, current: QueryResult<D, E>)
      modifies this
      ensures state == if resourceState.IsTracked() then current else old(state)
      ensures subscribed == old(subscribed) && mounted == old(mounted) && options == old(options)
      ensures setOptionsCalls == old(setOptionsCalls) && resource == old(resource)
      ensures Model() == Step(old(Model()), ResourceStateChanged(resourceState, current))
    {
      if resourceState == Pending || resourceState == Ready || resourceState == Errored {
        state := current;
      }
    }

    /** `onCleanup`: unsubscribe. */
    method Cleanup()
      modifies this
      ensures !subscribed
      ensures mounted == old(mounted) && options == old(options) && setOptionsCalls == old(setOptionsCalls)
      ensures resource == old(resource) && state == old(state)
      ensures Model() == Step(old(Model()), CleanedUp)
    {
      subscribed := false;
    }

    /** A property read through the proxy: a `data` read under the suspense or error-boundary
        condition goes to the resource; every other read returns the store's field. */
    function Get(prop: ResultInterceptor.Prop, query: Q): (r: Read<D, E>)
      reads this, boundary
      ensures !prop.DataProp? ==> r == Returned(ResultInterceptor.Field(state, prop))
      ensures (prop.DataProp? && ResultInterceptor.DataRedirects(options, state, boundary.isReset, query, shouldThrow))
              ==> r == Consume(resource)
      ensures (prop.DataProp? && !ResultInterceptor.DataRedirects(options, state, boundary.isReset, query, shouldThrow))
              ==> r == Returned(DataValue(state.data))
    {
      ResultInterceptor.Get(options, state, boundary.isReset, resource, prop, query, shouldThrow)
    }
  }
}
