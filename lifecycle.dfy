/** The bridge's lifecycle as a value: the state one `createBaseQuery` call keeps, the events the
    engine, the runtime and the error boundary deliver to it, and what each event does. Traces of
    events are folded from the front; the lemmas state what holds after any trace. */
module Lifecycle {
  import opened QueryTypes
  import opened OptionResolver
  import opened SuspenseAdapter
  import opened ResultInterceptor

  /** One `observer.setOptions(options, ...)` call; `notifyListeners` is false for `{ listeners: false }`. */
  datatype SetOptionsCall<O> = SetOptionsCall(options: Options<O>, notifyListeners: bool)

  datatype Bridge<D, E, O> = Bridge(
    subscribed: bool,                          // the observer subscription is open
    mounted: bool,                             // the mount effect has run
    options: Options<O>,                       // the memo's current value
    setOptionsCalls: seq<SetOptionsCall<O>>,   // every setOptions call made so far
    isReset: bool,                             // the error boundary's reset flag
    clearResetCalls: nat,                      // how often `clearReset` was called
    resource: Outcome<D, E>,                   // the latest fetcher run
    state: QueryResult<D, E>)                  // the store

  datatype Event<D, E, O> =
    | Notified(result: QueryResult<D, E>)                                     // the observer's listener fires
    | Mounted                                                                 // `onMount`
    | OptionsRecomputed(defaulted: Options<O>)                                // the memo re-runs on new caller options
    | ResetEffectRan                                                          // the reset effect
    | ResourceStateChanged(resourceState: ResourceState, current: QueryResult<D, E>) // the store-sync computation
    | BoundaryReset                                                           // the boundary is reset from outside
    | CleanedUp                                                               // `onCleanup`

  /** The state right after `createBaseQuery` returns. The memo has its first value, the store was
      filled with the optimistic result, the fetcher ran once with `refetching` false and one
      subscription is open. The store-sync computation is not deferred, so it has already run once:
      the first fetch left the resource `pending`, a tracked state, and the store now holds the
      observer's current result. The deferred options computation has not called `setOptions`. */
  function Init<D, E, O>(defaulted: Options<O>, isReset: bool, clearResetCalls: nat,
                         optimistic: QueryResult<D, E>, current: QueryResult<D, E>): (b: Bridge<D, E, O>)
    ensures b.subscribed && !b.mounted
    ensures b.options == EffectiveOptions(defaulted, isReset)
    ensures b.setOptionsCalls == []
    ensures b.resource.Unsettled?
    ensures b.state == current
    ensures b.isReset == isReset && b.clearResetCalls == clearResetCalls
  {
    var created := Bridge(true, false, EffectiveOptions(defaulted, isReset), [], isReset, clearResetCalls, Fetch(None), optimistic);
    Step(created, ResourceStateChanged(Pending, current))
  }

  /** One effect of the bridge. Each effect touches only its own part of the state, `setOptions`
      calls are only ever appended, and the subscription is never re-opened. */
  function Step<D, E, O>(b: Bridge<D, E, O>, e: Event<D, E, O>): (r: Bridge<D, E, O>)
    ensures r.subscribed ==> b.subscribed
    ensures r.subscribed != b.subscribed ==> e.CleanedUp?
    ensures r.mounted != b.mounted ==> e.Mounted?
    ensures r.options != b.options ==> e.OptionsRecomputed?
    ensures b.setOptionsCalls <= r.setOptionsCalls && |r.setOptionsCalls| <= |b.setOptionsCalls| + 1
    ensures r.setOptionsCalls != b.setOptionsCalls ==> e.Mounted? || e.OptionsRecomputed?
    ensures r.isReset != b.isReset ==> e.ResetEffectRan? || e.BoundaryReset?
    ensures r.clearResetCalls != b.clearResetCalls ==> e.ResetEffectRan? && b.isReset
    ensures r.resource != b.resource ==> e.Notified? && b.subscribed
    ensures r.state != b.state ==> e.ResourceStateChanged? && e.resourceState.IsTracked()
  {
    match e
    case Notified(r) =>
      if b.subscribed then b.(resource := Fetch(Some(r))) else b
    case Mounted =>
      b.(mounted := true, setOptionsCalls := b.setOptionsCalls + [SetOptionsCall(b.options, false)])
    case OptionsRecomputed(d) =>
      var o := EffectiveOptions(d, b.isReset);
      b.(options := o, setOptionsCalls := b.setOptionsCalls + [SetOptionsCall(o, true)])
    case ResetEffectRan =>
      if b.isReset then b.(isReset := false, clearResetCalls := b.clearResetCalls + 1) else b
    case ResourceStateChanged(rs, current) =>
      if rs.IsTracked() then b.(state := current) else b
    case BoundaryReset =>
      b.(isReset := true)
    case CleanedUp =>
      b.(subscribed := false)
  }

  function Run<D, E, O>(b: Bridge<D, E, O>, t: seq<Event<D, E, O>>): Bridge<D, E, O>
    decreases |t|
  {
    if t == [] then b else Step(Run(b, t[..|t| - 1]), t[|t| - 1])
  }

  lemma RunSnoc<D, E, O>(b: Bridge<D, E, O>, t: seq<Event<D, E, O>>, e: Event<D, E, O>)
    ensures Run(b, t + [e]) == Step(Run(b, t), e)
  {
    assert (t + [e])[..|t + [e]| - 1] == t;
  }

  /** Running two traces one after the other is running their concatenation. */
  lemma {:induction false} RunAppend<D, E, O>(b: Bridge<D, E, O>, t1: seq<Event<D, E, O>>, t2: seq<Event<D, E, O>>)
    ensures Run(b, t1 + t2) == Run(Run(b, t1), t2)
    decreases |t2|
  {
    if t2 == [] {
      assert t1 + t2 == t1;
    } else {
      var init := t2[..|t2| - 1];
      var last := t2[|t2| - 1];
      assert t2 == init + [last];
      assert t1 + t2 == (t1 + init) + [last];
      RunAppend(b, t1, init);
      RunSnoc(b, t1 + init, last);
      RunSnoc(Run(b, t1), init, last);
    }
  }

  /** The result of the last notification in `t`, if any. */
  function LastNotified<D, E, O>(t: seq<Event<D, E, O>>): (r: Option<QueryResult<D, E>>)
    ensures r.None? <==> forall i :: 0 <= i < |t| ==> !t[i].Notified?
    ensures r.Some? ==>
              exists k :: 0 <= k < |t| && t[k] == Notified(r.value)
                          && forall j :: k < j < |t| ==> !t[j].Notified?
    decreases |t|
  {
    if t == [] then None
    else if t[|t| - 1].Notified? then Some(t[|t| - 1].result)
    else
      var p := LastNotified(t[..|t| - 1]);
      assert forall i :: 0 <= i < |t| - 1 ==> t[..|t| - 1][i] == t[i];
      p
  }

  /** The result of the last store-sync event in `t` whose resource state is tracked, if any. */
  function LastSynced<D, E, O>(t: seq<Event<D, E, O>>): (r: Option<QueryResult<D, E>>)
    ensures r.None? <==>
              forall i :: 0 <= i < |t| ==> !(t[i].ResourceStateChanged? && t[i].resourceState.IsTracked())
    ensures r.Some? ==>
              exists k :: 0 <= k < |t| && t[k].ResourceStateChanged? && t[k].resourceState.IsTracked()
                          && t[k].current == r.value
                          && forall j :: k < j < |t| ==> !(t[j].ResourceStateChanged? && t[j].resourceState.IsTracked())
    decreases |t|
  {
    if t == [] then None
    else if t[|t| - 1].ResourceStateChanged? && t[|t| - 1].resourceState.IsTracked() then Some(t[|t| - 1].current)
    else
      var p := LastSynced(t[..|t| - 1]);
      assert forall i :: 0 <= i < |t| - 1 ==> t[..|t| - 1][i] == t[i];
      p
  }

  /** While the subscription stays open, the resource is decided by the latest notification alone:
      no notification leaves it as it was, otherwise it is the fetcher's outcome for the last one. */
  lemma {:induction false} LatestNotificationDecides<D, E, O>(b: Bridge<D, E, O>, t: seq<Event<D, E, O>>)
    requires b.subscribed
    requires forall i :: 0 <= i < |t| ==> !t[i].CleanedUp?
    ensures Run(b, t).subscribed
    ensures LastNotified(t).None? ==> Run(b, t).resource == b.resource
    ensures LastNotified(t).Some? ==> Run(b, t).resource == Fetch(LastNotified(t))
    decreases |t|
  {
    if t != [] {
      var p := t[..|t| - 1];
      assert forall i :: 0 <= i < |p| ==> p[i] == t[i];
      LatestNotificationDecides(b, p);
    }
  }

  /** The store holds the result of the latest sync in a tracked resource state; nothing from an
      earlier notification survives it. */
  lemma {:induction false} StoreHoldsLatestSync<D, E, O>(b: Bridge<D, E, O>, t: seq<Event<D, E, O>>)
    ensures LastSynced(t).None? ==> Run(b, t).state == b.state
    ensures LastSynced(t).Some? ==> Run(b, t).state == LastSynced(t).value
    decreases |t|
  {
    if t != [] {
      StoreHoldsLatestSync(b, t[..|t| - 1]);
    }
  }

  /** Once unsubscribed, the bridge stays unsubscribed and no notification reaches the resource. */
  lemma {:induction false} UnsubscribedStaysSilent<D, E, O>(b: Bridge<D, E, O>, t: seq<Event<D, E, O>>)
    requires !b.subscribed
    ensures !Run(b, t).subscribed
    ensures Run(b, t).resource == b.resource
    decreases |t|
  {
    if t != [] {
      UnsubscribedStaysSilent(b, t[..|t| - 1]);
    }
  }

  /** Whatever happens after cleanup, the subscription is closed and the resource keeps the value
      it had when cleanup ran. */
  lemma NotificationsAfterCleanupDropped<D, E, O>(
    b: Bridge<D, E, O>, before: seq<Event<D, E, O>>, after: seq<Event<D, E, O>>)
    ensures !Run(b, before + [CleanedUp] + after).subscribed
    ensures Run(b, before + [CleanedUp] + after).resource == Run(b, before).resource
  {
    RunAppend(b, before + [CleanedUp], after);
    RunSnoc(b, before, CleanedUp);
    UnsubscribedStaysSilent(Run(b, before + [CleanedUp]), after);
  }

  /** The number of events that run a `setOptions` call: the mount effect and option changes. */
  function CountSetOptionEvents<D, E, O>(t: seq<Event<D, E, O>>): nat
    decreases |t|
  {
    if t == [] then 0
    else CountSetOptionEvents(t[..|t| - 1]) + (if t[|t| - 1].Mounted? || t[|t| - 1].OptionsRecomputed? then 1 else 0)
  }

  /** `setOptions` is called once per mount and once per option change and at no other time; earlier
      calls are never revised. */
  lemma {:induction false} SetOptionsOnlyOnMountAndChange<D, E, O>(b: Bridge<D, E, O>, t: seq<Event<D, E, O>>)
    ensures b.setOptionsCalls <= Run(b, t).setOptionsCalls
    ensures |Run(b, t).setOptionsCalls| == |b.setOptionsCalls| + CountSetOptionEvents(t)
    decreases |t|
  {
    if t != [] {
      SetOptionsOnlyOnMountAndChange(b, t[..|t| - 1]);
    }
  }

  /** Without an option change, every call `setOptions` receives suppresses the listeners. */
  lemma {:induction false} SilentWithoutOptionChanges<D, E, O>(b: Bridge<D, E, O>, t: seq<Event<D, E, O>>)
    requires forall i :: 0 <= i < |t| ==> !t[i].OptionsRecomputed?
    ensures b.setOptionsCalls <= Run(b, t).setOptionsCalls
    ensures forall i :: |b.setOptionsCalls| <= i < |Run(b, t).setOptionsCalls| ==>
              !Run(b, t).setOptionsCalls[i].notifyListeners
    decreases |t|
  {
    if t != [] {
      var p := t[..|t| - 1];
      assert forall i :: 0 <= i < |p| ==> p[i] == t[i];
      SilentWithoutOptionChanges(b, p);
    }
  }

  /** Every option change re-applies the freshly resolved options with notification. */
  lemma OptionChangeReapplies<D, E, O>(b: Bridge<D, E, O>, t: seq<Event<D, E, O>>, d: Options<O>)
    ensures Run(b, t + [OptionsRecomputed(d)]).options == EffectiveOptions(d, Run(b, t).isReset)
    ensures Run(b, t + [OptionsRecomputed(d)]).setOptionsCalls ==
              Run(b, t).setOptionsCalls + [SetOptionsCall(EffectiveOptions(d, Run(b, t).isReset), true)]
  {
    RunSnoc(b, t, OptionsRecomputed(d));
  }

  /** The number of times the boundary was reset from outside. */
  function CountBoundaryResets<D, E, O>(t: seq<Event<D, E, O>>): nat
    decreases |t|
  {
    if t == [] then 0 else CountBoundaryResets(t[..|t| - 1]) + (if t[|t| - 1].BoundaryReset? then 1 else 0)
  }

  /** Each reset is consumed at most once: `clearReset` is called no more often than the boundary
      was reset (counting a reset pending at the start). */
  lemma {:induction false} ResetConsumedOnce<D, E, O>(b: Bridge<D, E, O>, t: seq<Event<D, E, O>>)
    ensures b.clearResetCalls <= Run(b, t).clearResetCalls
    ensures Run(b, t).clearResetCalls + (if Run(b, t).isReset then 1 else 0)
            <= b.clearResetCalls + (if b.isReset then 1 else 0) + CountBoundaryResets(t)
    decreases |t|
  {
    if t != [] {
      ResetConsumedOnce(b, t[..|t| - 1]);
    }
  }

  /** After the reset effect the flag is cleared, by a `clearReset` call exactly when it was set. */
  lemma ResetEffectClears<D, E, O>(b: Bridge<D, E, O>, t: seq<Event<D, E, O>>)
    ensures !Run(b, t + [ResetEffectRan]).isReset
    ensures Run(b, t + [ResetEffectRan]).clearResetCalls ==
              Run(b, t).clearResetCalls + (if Run(b, t).isReset then 1 else 0)
  {
    RunSnoc(b, t, ResetEffectRan);
  }

  /** After any trace, a `data` read that is not redirected returns the data of the result that the
      latest tracked store sync published. */
  lemma ExposedDataIsLatest<D, E, O, Q>(
    b: Bridge<D, E, O>, t: seq<Event<D, E, O>>, query: Q,
    shouldThrow: (ErrorBoundaryOption, Option<E>, Q) -> bool)
    requires LastSynced(t).Some?
    requires !DataRedirects(Run(b, t).options, LastSynced(t).value, Run(b, t).isReset, query, shouldThrow)
    ensures Get(Run(b, t).options, Run(b, t).state, Run(b, t).isReset, Run(b, t).resource, DataProp, query, shouldThrow)
            == Returned(DataValue(LastSynced(t).value.data))
  {
    StoreHoldsLatestSync(b, t);
  }

  /** Suspense path: while the first load is in flight, a `data` read suspends; once a success is
      notified and the resource reaches `ready`, the same read returns the fetched data. */
  lemma SuspendsUntilSuccess<D, E, O, Q>(
    b: Bridge<D, E, O>, r: QueryResult<D, E>, query: Q,
    shouldThrow: (ErrorBoundaryOption, Option<E>, Q) -> bool)
    requires b.subscribed && b.options.suspense && b.resource.Unsettled?
    requires b.state.IsLoading() && b.state.IsFetching()
    requires r.IsSuccess()
    ensures Get(b.options, b.state, b.isReset, b.resource, DataProp, query, shouldThrow) == Suspended
    ensures var a := Run(b, [Notified(r), ResourceStateChanged(Ready, r)]);
            Get(a.options, a.state, a.isReset, a.resource, DataProp, query, shouldThrow) == Returned(DataValue(r.data))
  {
    var first: seq<Event<D, E, O>> := [Notified(r)];
    RunSnoc(b, [], Notified(r));
    RunSnoc(b, first, ResourceStateChanged(Ready, r));
    assert first + [ResourceStateChanged(Ready, r)] == [Notified(r), ResourceStateChanged(Ready, r)];
  }

  /** Error-boundary path: a settled error the policy wants raises into the boundary while it is not
      reset; after the boundary is reset, the next resolved options keep the caller's retry on mount. */
  lemma ErrorBoundaryPath<D, E, O, Q>(
    b: Bridge<D, E, O>, r: QueryResult<D, E>, d: Options<O>, query: Q,
    shouldThrow: (ErrorBoundaryOption, Option<E>, Q) -> bool)
    requires b.subscribed && !b.isReset
    requires r.IsError() && !r.IsFetching() && shouldThrow(b.options.useErrorBoundary, r.error, query)
    ensures var a := Run(b, [Notified(r), ResourceStateChanged(Errored, r)]);
            Get(a.options, a.state, a.isReset, a.resource, DataProp, query, shouldThrow) == Thrown(r.error)
    ensures Run(b, [BoundaryReset, OptionsRecomputed(d)]).options.retryOnMount == d.retryOnMount
  {
    var first: seq<Event<D, E, O>> := [Notified(r)];
    RunSnoc(b, [], Notified(r));
    RunSnoc(b, first, ResourceStateChanged(Errored, r));
    assert first + [ResourceStateChanged(Errored, r)] == [Notified(r), ResourceStateChanged(Errored, r)];
    var reset: seq<Event<D, E, O>> := [BoundaryReset];
    RunSnoc(b, [], BoundaryReset);
    RunSnoc(b, reset, OptionsRecomputed(d));
    assert reset + [OptionsRecomputed(d)] == [BoundaryReset, OptionsRecomputed(d)];
  }
}
