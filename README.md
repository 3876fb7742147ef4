# solid-query `createBaseQuery`, modelled in Dafny

This project models the Solid bridge of TanStack Query, `packages/solid-query/src/createBaseQuery.ts`. The bridge
exposes the live result of a query-core `QueryObserver` inside Solid's reactive runtime. It has four parts:

- **Option post-processing** (the `defaultedOptions` memo). It takes the defaulted options record and the error
  reset boundary's `isReset()` flag. It always sets `_optimisticResults` to `'optimistic'`. Under suspense it injects
  `staleTime = 1000` when `staleTime` is not a number. Under suspense or error-boundary mode it forces
  `retryOnMount = false` while the boundary is not reset. Module `OptionResolver` holds the specification function
  `EffectiveOptions`, and the method `ResolveOptions` overwrites the fields one at a time, as the memo does.
- **Suspense adapter** (`createResource` and its fetcher). Every observer notification calls `refetch(result)`.
  The fetcher then settles to `Resolved(data)` on success. It settles to `Rejected(error)` on an error with no fetch
  in flight. Otherwise it stays `Unsettled`. Module `SuspenseAdapter` also states what a read of the resource does:
  suspend, return the value, or throw.
- **Data-read redirection** (the proxy's `get` handler). Reading `data` goes to the resource when the suspense
  condition or the error-boundary condition holds. Every other read returns the stored field. Module
  `ResultInterceptor` models this. `shouldThrowError` is an uninterpreted function parameter.
- **Lifecycle.** This covers the subscription and its cleanup, the mount-time `setOptions` with `listeners: false`,
  the deferred re-application of changed options, the reset effect, and the store sync on resource-state changes.
  Module `Lifecycle` models these as a value `Bridge`, an `Event` per effect, a transition function `Step` and a fold
  `Run` over traces. Its lemmas are proved by induction over any trace. Module `CreateBaseQuery` has the class
  `BaseQuery` with one method per effect and the shared `ErrorResetBoundary`. Each method ensures
  `Model() == Step(old(Model()), event)` and says what each field becomes, so the trace lemmas hold for any call
  sequence.

Three details of the code that the model keeps:

- The stale time is injected when `typeof staleTime !== 'number'`, so `Infinity` counts as set.
- The store-sync computation replaces the store from `getCurrentResult()` whenever it runs in the `pending`,
  `ready` or `errored` resource state. It is not deferred, so it first runs during construction: the first fetch
  leaves the resource `pending`, and the store already holds the current result, not the optimistic one, when
  `createBaseQuery` returns. After that it runs when the resource state changes, not on every notification. A
  `refreshing` resource leaves the store as it was.
- The reset flag is cleared by an effect whenever it finds the flag set. Nothing waits for a new observation.

## Model

| member | source | states |
|---|---|---|
| `OptionResolver.EffectiveOptions` | packages/solid-query/src/createBaseQuery.ts:37-55 | `_optimisticResults` is always `Optimistic`; `suspense`, `useErrorBoundary` and all other fields are kept; a number `staleTime`, or any `staleTime` without suspense, is kept; a non-number under suspense becomes 1000; `retryOnMount` changes only when (suspense ∨ truthy `useErrorBoundary`) ∧ ¬isReset, and then it is `false`; after a reset it is never changed |
| `OptionResolver.ResolveOptions` | packages/solid-query/src/createBaseQuery.ts:38-54 | the field-by-field overwrites of the memo body give exactly `EffectiveOptions` |
| `OptionResolver.EffectiveIsResolved` | packages/solid-query/src/createBaseQuery.ts:39-53 | the output obeys every rule: optimistic, a number stale time under suspense, no retry on mount whenever retry is suppressed |
| `OptionResolver.EffectiveFixedPoints` | packages/solid-query/src/createBaseQuery.ts:37-55 | a record is returned unchanged iff it already obeys every rule (both directions) |
| `OptionResolver.ResolveIdempotent` | packages/solid-query/src/createBaseQuery.ts:43-51 | post-processing its own output with the same reset flag yields the same record |
| `SuspenseAdapter.Fetch` | packages/solid-query/src/createBaseQuery.ts:64-76 | resolves iff a notified result is a success, with its data; is rejected iff a notified result is a non-success error with no fetch in flight, with its error; is unsettled otherwise and on the first run without a result |
| `SuspenseAdapter.Consume` | packages/solid-query/src/createBaseQuery.ts:134-136 | reading the resource suspends iff it is unsettled, returns the data iff it resolved, and throws only the error it was rejected with |
| `SuspenseAdapter.ReadAfterNotification` | packages/solid-query/src/createBaseQuery.ts:64-80 | right after a notification, a success yields its data, a settled error throws it, and a load or a refetch after an error still in flight suspends |
| `ResultInterceptor.Get` | packages/solid-query/src/createBaseQuery.ts:114-141 | a non-`data` read returns the stored field; a `data` read goes to the resource iff (suspense ∧ isLoading ∧ isFetching) ∨ (isError ∧ ¬isReset ∧ ¬isFetching ∧ shouldThrow(useErrorBoundary, error, query)); otherwise it returns the stored data |
| `ResultInterceptor.ErrorBoundaryNeedsSettledUnresetError` | packages/solid-query/src/createBaseQuery.ts:124-133 | while a fetch is in flight or once the boundary is reset, the error-boundary redirect never fires and only the suspense condition can redirect |
| `ResultInterceptor.PlainReadWithoutSuspenseOrThrow` | packages/solid-query/src/createBaseQuery.ts:119-137 | without suspense and without the policy asking to throw, a `data` read returns the stored data |
| `ResultInterceptor.InterruptsOnlyWhenRedirected` | packages/solid-query/src/createBaseQuery.ts:119-139 | a read suspends or throws only as a redirected `data` read; it suspends only on an unsettled resource and throws only the resource's rejection error |
| `Lifecycle.LatestNotificationDecides` | packages/solid-query/src/createBaseQuery.ts:64-80 | while subscribed, after any trace the resource is the fetcher's outcome for the last notified result, or unchanged if there was none |
| `Lifecycle.StoreHoldsLatestSync` | packages/solid-query/src/createBaseQuery.ts:107-112 | after any trace the store is the current result of the last store sync in a tracked state, or unchanged if there was none |
| `Lifecycle.UnsubscribedStaysSilent` | packages/solid-query/src/createBaseQuery.ts:78-82 | once unsubscribed, no later event re-opens the subscription or changes the resource |
| `Lifecycle.NotificationsAfterCleanupDropped` | packages/solid-query/src/createBaseQuery.ts:78-82 | after cleanup, whatever follows, the subscription is closed and the resource keeps its value from cleanup time |
| `Lifecycle.SetOptionsOnlyOnMountAndChange` | packages/solid-query/src/createBaseQuery.ts:84-99 | `setOptions` is called exactly once per mount and per option change, and at no other time; earlier calls are kept |
| `Lifecycle.SilentWithoutOptionChanges` | packages/solid-query/src/createBaseQuery.ts:84-99 | without an option change, every new `setOptions` call suppresses the listeners |
| `Lifecycle.OptionChangeReapplies` | packages/solid-query/src/createBaseQuery.ts:91-99 | an option change stores the freshly resolved options and applies them with notification |
| `Lifecycle.ResetConsumedOnce` | packages/solid-query/src/createBaseQuery.ts:101-105 | `clearReset` is called no more often than the boundary was reset (counting a reset pending at the start) |
| `Lifecycle.ResetEffectClears` | packages/solid-query/src/createBaseQuery.ts:101-105 | after the reset effect the flag is clear, and `clearReset` was called exactly when it was set |
| `Lifecycle.ExposedDataIsLatest` | packages/solid-query/src/createBaseQuery.ts:107-141 | after any trace, a `data` read that is not redirected returns the data of the latest result the store sync published |
| `Lifecycle.SuspendsUntilSuccess` | packages/solid-query/src/createBaseQuery.ts:64-137 | under suspense the first read during the initial load suspends; after a success notification and the `ready` sync, the same read returns the fetched data |
| `Lifecycle.ErrorBoundaryPath` | packages/solid-query/src/createBaseQuery.ts:48-135 | a settled error the policy wants is thrown into an unreset boundary; after a boundary reset, newly resolved options keep the caller's `retryOnMount` |
| `Lifecycle.Init` | packages/solid-query/src/createBaseQuery.ts:37-112 | right after creation: the memo's first value, an unsettled resource, an open subscription, no `setOptions` call yet (the options computation is deferred), and the store holding the current result from the store sync's first run in the `pending` state |
| `Lifecycle.Step` | packages/solid-query/src/createBaseQuery.ts:78-112 | each effect touches only its own part of the state: only cleanup changes the subscription and it never re-opens it; only a delivered notification changes the resource; only a tracked store sync changes the store; only mount and option changes append `setOptions` calls, one at a time, keeping the earlier ones; only the reset effect and an outside reset change the flag, and `clearReset` is counted only when the flag was set |
| `CreateBaseQuery.BaseQuery.constructor` | packages/solid-query/src/createBaseQuery.ts:37-112 | the memo's first value, an unsettled resource, an open subscription and no `setOptions` call; the store is filled with the optimistic result and then replaced by the current result in the store sync's first run; the new state is `Init` |
| `CreateBaseQuery.BaseQuery.Notify` | packages/solid-query/src/createBaseQuery.ts:78-80 | the resource becomes the fetcher's outcome for the notified result while subscribed; nothing else changes |
| `CreateBaseQuery.BaseQuery.Mount` | packages/solid-query/src/createBaseQuery.ts:84-88 | marks the bridge mounted and appends one `setOptions` call with the current options and `listeners: false` |
| `CreateBaseQuery.BaseQuery.OptionsChanged` | packages/solid-query/src/createBaseQuery.ts:37-55 | the options become the resolved new record under the boundary's current flag, applied with notification |
| `CreateBaseQuery.BaseQuery.ResetEffect` | packages/solid-query/src/createBaseQuery.ts:101-105 | the boundary's flag is clear afterwards; `clearReset` is called once if it was set and not at all otherwise |
| `CreateBaseQuery.BaseQuery.SyncStore` | packages/solid-query/src/createBaseQuery.ts:107-112 | in the `pending`, `ready` and `errored` states the store is replaced wholesale by the current result; otherwise it is kept |
| `CreateBaseQuery.BaseQuery.Get` | packages/solid-query/src/createBaseQuery.ts:114-141 | a read through the proxy on the object's own fields: a non-`data` read returns the store's field; a `data` read goes to the resource iff the suspense or error-boundary condition holds under the boundary's current flag; otherwise it returns the stored data |
| `CreateBaseQuery.BaseQuery.Cleanup` | packages/solid-query/src/createBaseQuery.ts:82 | the subscription is closed and nothing else changes |

## Left out

- The overload normalisation in `packages/solid-query/src/createQuery.ts` is not modelled. It only feeds `parseQueryArgs` output into a store and calls `createBaseQuery`.
- The tracked-result wrapping (lines 148-150) is not modelled. It is `observer.trackResult`, a foreign call, chosen when `notifyOnChangeProps` is unset. Read tracking belongs to query-core.
- The query-core calls are inputs here. `defaultQueryOptions` becomes the defaulted record passed in. `getOptimisticResult` and `getCurrentResult` become result parameters. `getCurrentQuery` becomes a query handle passed to a read. Retries, caching and cancellation are not modelled. A `setOptions` call is recorded, not carried out.
- `shouldThrowError` is an uninterpreted function parameter, because its code is not part of this model. `useQueryClient` is not modelled. `useQueryErrorResetBoundary` is replaced by an `ErrorResetBoundary` object handed to the constructor.
- Solid's scheduler is not modelled. Effects arrive as events in any order, and each event runs the body of one computation. Three runtime rules are not captured. After construction, the store sync runs only when the resource state actually changes. Promises settle asynchronously. A `refetch` issued before the microtask that follows the previous load is ignored, not merged, so the earlier notification decides the resource.
- LatestNotificationDecides: holds only for notifications that Solid does not ignore in this way. The model treats every delivered notification as a new fetcher run.
- The resource state seen by the store sync is an input, not derived from the fetcher outcomes. Solid's `refreshing` state is not derived either. A resource read outside a suspense boundary returns the previous value, which is not modelled.
- A notification after `unsubscribe` is dropped by a `subscribed` guard. This stands in for query-core removing the listener.
- `staleTime` has no `NaN` value. `NaN` is a JavaScript number and would be left unchanged like any other number.
- A result holds only the fields the bridge reads, plus a few republished ones (failure count, timestamps, staleness). Control handles such as `refetch` and `remove` are not modelled.
